/**
 * GregNotesLogger._parse_message (orchestrator.py:70-103): the classifier that turns one line of
 * battle narration into the columns of a note (event type, source, target, value). It is pure
 * string work: strip the line, split a "source: " prefix off at the first ": ", classify, fall
 * back to a deity's name as the first word, and read a target and a value with the first of four
 * regular expressions that matches. The regular-expression searches are modelled by the
 * leftmost-match, shortest-target semantics Python's `re.search` gives these patterns.
 */
module NotesLogger {
  import opened Wrappers

  // ---------------------------------------------------------------------------------------------
  // Whitespace and str.strip()

  /** The characters str.isspace() accepts, which str.strip() with no argument removes. */
  predicate IsSpace(c: char) {
    || c == ' ' || ('\t' <= c <= '\r') || ('\U{1c}' <= c <= '\U{1f}') || c == '\U{85}' || c == '\U{a0}'
    || c == '\U{1680}' || ('\U{2000}' <= c <= '\U{200a}') || c == '\U{2028}' || c == '\U{2029}'
    || c == '\U{202f}' || c == '\U{205f}' || c == '\U{3000}'
  }

  /** The length of the run of whitespace that opens s. */
  function LeadingSpace(s: string): (n: nat)
    ensures n <= |s|
    ensures forall i :: 0 <= i < n ==> IsSpace(s[i])
    ensures n < |s| ==> !IsSpace(s[n])
  {
    if s == [] || !IsSpace(s[0]) then 0 else 1 + LeadingSpace(s[1..])
  }

  /** The length of the run of whitespace that closes s. */
  function TrailingSpace(s: string): (n: nat)
    ensures n <= |s|
    ensures forall i :: |s| - n <= i < |s| ==> IsSpace(s[i])
    ensures n < |s| ==> !IsSpace(s[|s| - 1 - n])
  {
    if s == [] || !IsSpace(s[|s| - 1]) then 0 else 1 + TrailingSpace(s[..|s| - 1])
  }

  /** str.strip(): the part of s left when whitespace is removed from both ends. It is the slice
    * of s that starts after the leading whitespace, it neither starts nor ends with whitespace,
    * and every character of s outside it is whitespace. */
  function Strip(s: string): (r: string)
    ensures LeadingSpace(s) + |r| <= |s| && r == s[LeadingSpace(s)..LeadingSpace(s) + |r|]
    ensures r == [] || (!IsSpace(r[0]) && !IsSpace(r[|r| - 1]))
    ensures forall i :: 0 <= i < LeadingSpace(s) || LeadingSpace(s) + |r| <= i < |s| ==> IsSpace(s[i])
  {
    var rest := s[LeadingSpace(s)..];
    rest[..|rest| - TrailingSpace(rest)]
  }

  /** Stripping twice is stripping once. */
  lemma StripIsIdempotent(s: string)
    ensures Strip(Strip(s)) == Strip(s)
  {
    var r := Strip(s);
    assert LeadingSpace(r) == 0;
    assert r[LeadingSpace(r)..] == r;
    assert TrailingSpace(r) == 0;
  }

  // ---------------------------------------------------------------------------------------------
  // Substring search

  predicate OccursAt(s: string, pat: string, j: nat) {
    j + |pat| <= |s| && s[j..j + |pat|] == pat
  }

  /** The first position at or after j where pat occurs in s, if any. */
  function FindFrom(s: string, pat: string, j: nat): (r: Option<nat>)
    ensures r.Some? ==> j <= r.value && OccursAt(s, pat, r.value)
    ensures r.Some? ==> forall i: nat :: j <= i < r.value ==> !OccursAt(s, pat, i)
    ensures r.None? ==> forall i: nat :: j <= i ==> !OccursAt(s, pat, i)
    decreases |s| - j
  {
    if j + |pat| > |s| then None
    else if OccursAt(s, pat, j) then Some(j)
    else FindFrom(s, pat, j + 1)
  }

  /** Python's `pat in s`. */
  predicate Contains(s: string, pat: string) {
    FindFrom(s, pat, 0).Some?
  }

  predicate StartsWith(s: string, p: string) {
    |p| <= |s| && s[..|p|] == p
  }

  // ---------------------------------------------------------------------------------------------
  // Source and event type

  const Separator: string := ": "

  /** `source, trimmed = trimmed.split(": ", 1)` when the line holds a ": ": the source is the text
    * before the first one and the rest the text after it; otherwise there is no source. Putting
    * the pieces back together gives the line again. */
  function SplitSource(trimmed: string): (r: (Option<string>, string))
    ensures r.0.None? ==> r.1 == trimmed && forall j: nat :: !OccursAt(trimmed, Separator, j)
    ensures r.0.Some? ==> r.0.value + Separator + r.1 == trimmed
  {
    match FindFrom(trimmed, Separator, 0)
    case None => (None, trimmed)
    case Some(j) => (Some(trimmed[..j]), trimmed[j + |Separator|..])
  }

  /** The source split off is the text before the FIRST separator: it holds no separator itself. */
  lemma SourceHasNoSeparator(trimmed: string)
    requires SplitSource(trimmed).0.Some?
    ensures forall j: nat :: !OccursAt(SplitSource(trimmed).0.value, Separator, j)
  {
    var j :| FindFrom(trimmed, Separator, 0) == Some(j);
    var source := trimmed[..j];
    forall i: nat | OccursAt(source, Separator, i)
      ensures false
    {
      assert trimmed[i..i + |Separator|] == source[i..i + |Separator|];
      assert OccursAt(trimmed, Separator, i);
    }
  }

  predicate IsGodName(s: string) {
    s == "Brahma" || s == "Vishnu" || s == "Shiva"
  }

  datatype EventKind = CosmicEventKind | DivineKind | DamageKind | LogKind

  /** The event_type column each kind is stored as. */
  function Label(k: EventKind): string {
    match k
    case CosmicEventKind => "cosmic_event"
    case DivineKind => "divine"
    case DamageKind => "damage"
    case LogKind => "log"
  }

  const CosmicBanner: string := "*** Cosmic Event:"

  /** The event type (orchestrator.py:80-85), checked on the text after the split. */
  function Classify(source: Option<string>, rest: string): (k: EventKind)
    ensures k == CosmicEventKind <==> StartsWith(rest, CosmicBanner)
    ensures k == DivineKind <==> !StartsWith(rest, CosmicBanner) && source.Some? && IsGodName(source.value)
    ensures k == DamageKind <==> && !StartsWith(rest, CosmicBanner) && !(source.Some? && IsGodName(source.value))
                                 && Contains(rest, "takes") && Contains(rest, "damage")
    ensures k == LogKind <==> && !StartsWith(rest, CosmicBanner) && !(source.Some? && IsGodName(source.value))
                              && !(Contains(rest, "takes") && Contains(rest, "damage"))
  {
    if StartsWith(rest, CosmicBanner) then CosmicEventKind
    else if source.Some? && IsGodName(source.value) then DivineKind
    else if Contains(rest, "takes") && Contains(rest, "damage") then DamageKind
    else LogKind
  }

  /** `trimmed.split(" ", 1)[0]`: the text before the first space, or all of it. */
  function FirstWord(s: string): (w: string)
    ensures StartsWith(s, w)
    ensures w == s || s[|w|] == ' '
    ensures forall i :: 0 <= i < |w| ==> w[i] != ' '
  {
    match FindFrom(s, " ", 0)
    case None =>
      NoSpaceBefore(s, |s|);
      s
    case Some(j) =>
      NoSpaceBefore(s, j);
      assert s[j..j + 1] == " ";
      s[..j]
  }

  lemma NoSpaceBefore(s: string, j: nat)
    requires j <= |s| && forall i: nat :: i < j ==> !OccursAt(s, " ", i)
    ensures forall i :: 0 <= i < j ==> s[i] != ' '
  {
    forall i | 0 <= i < j
      ensures s[i] != ' '
    {
      assert !OccursAt(s, " ", i);
      assert s[i..i + 1] == [s[i]];
    }
  }

  // ---------------------------------------------------------------------------------------------
  // The four regular expressions

  /** `[\d.]`, with `\d` read as the ASCII digits. */
  predicate IsNumeralChar(c: char) {
    ('0' <= c <= '9') || c == '.'
  }

  /** The length of the longest run of numeral characters that opens s: what the greedy
    * `[\d.]+` takes. */
  function NumeralRun(s: string): (n: nat)
    ensures n <= |s|
    ensures forall i :: 0 <= i < n ==> IsNumeralChar(s[i])
    ensures n < |s| ==> !IsNumeralChar(s[n])
  {
    if s == [] || !IsNumeralChar(s[0]) then 0 else 1 + NumeralRun(s[1..])
  }

  /** The numeral that starts at position v of s. */
  function NumeralAt(s: string, v: nat): (t: string)
    requires v <= |s|
    ensures forall c :: c in t ==> IsNumeralChar(c)
    ensures v < |s| && IsNumeralChar(s[v]) ==> |t| >= 1
  {
    s[v..v + NumeralRun(s[v..])]
  }

  /**
   * A match, starting at position i, of a pattern `<lead>(?P<target>.+?)<sep>(?P<value>[\d.]+)`
   * with a target of k characters: the lead, then k characters none of which is a line break,
   * then the separator, then at least one numeral character.
   */
  predicate TaggedAt(s: string, lead: string, sep: string, i: nat, k: nat) {
    var t := i + |lead|;
    var v := t + k + |sep|;
    && 1 <= k && v < |s|
    && s[i..t] == lead
    && (forall j :: t <= j < t + k ==> s[j] != '\n')
    && s[t + k..v] == sep
    && IsNumeralChar(s[v])
  }

  /** The lazy `.+?` at a start where the lead matched: the shortest target of at least k
    * characters the rest of the pattern accepts. */
  function LazyTarget(s: string, lead: string, sep: string, i: nat, k: nat): (r: Option<nat>)
    requires 1 <= k && i + |lead| <= |s| && s[i..i + |lead|] == lead
    requires i + |lead| + k - 1 <= |s|
    requires forall j :: i + |lead| <= j < i + |lead| + k - 1 ==> s[j] != '\n'
    ensures r.Some? ==> k <= r.value && TaggedAt(s, lead, sep, i, r.value)
    ensures r.Some? ==> forall k': nat :: k <= k' < r.value ==> !TaggedAt(s, lead, sep, i, k')
    ensures r.None? ==> forall k': nat :: k <= k' ==> !TaggedAt(s, lead, sep, i, k')
    decreases |s| - k
  {
    var t := i + |lead|;
    if t + k + |sep| >= |s| then None
    else if s[t + k - 1] == '\n' then None
    else if s[t + k..t + k + |sep|] == sep && IsNumeralChar(s[t + k + |sep|]) then Some(k)
    else LazyTarget(s, lead, sep, i, k + 1)
  }

  /** re.search for such a pattern from position i on: the leftmost start at which it matches,
    * with the shortest target there. */
  function SearchTagged(s: string, lead: string, sep: string, i: nat): (r: Option<(nat, nat)>)
    ensures r.Some? ==> i <= r.value.0 && TaggedAt(s, lead, sep, r.value.0, r.value.1)
    ensures r.Some? ==> forall p: nat, k: nat :: i <= p < r.value.0 ==> !TaggedAt(s, lead, sep, p, k)
    ensures r.Some? ==> forall k: nat :: k < r.value.1 ==> !TaggedAt(s, lead, sep, r.value.0, k)
    ensures r.None? ==> forall p: nat, k: nat :: i <= p ==> !TaggedAt(s, lead, sep, p, k)
    decreases |s| - i
  {
    if i + |lead| >= |s| then None
    else if s[i..i + |lead|] == lead then
      match LazyTarget(s, lead, sep, i, 1)
      case Some(k) => Some((i, k))
      case None => SearchTagged(s, lead, sep, i + 1)
    else SearchTagged(s, lead, sep, i + 1)
  }

  /** A match of `takes (?P<value>[\d.]+) damage` at position i. The value is the whole run of
    * numeral characters after "takes ": a shorter run would be followed by a numeral character,
    * never by the space the pattern needs next, so backtracking cannot shorten it. */
  predicate DamageAt(s: string, i: nat) {
    var v := i + 6;
    && v <= |s| && s[i..v] == "takes "
    && var n := NumeralRun(s[v..]); 1 <= n && OccursAt(s, " damage", v + n)
  }

  /** re.search for the damage pattern from position i on. */
  function SearchDamage(s: string, i: nat): (r: Option<nat>)
    ensures r.Some? ==> i <= r.value && DamageAt(s, r.value)
    ensures r.Some? ==> forall p: nat :: i <= p < r.value ==> !DamageAt(s, p)
    ensures r.None? ==> forall p: nat :: i <= p ==> !DamageAt(s, p)
    decreases |s| - i
  {
    if i + 6 > |s| then None
    else if DamageAt(s, i) then Some(i)
    else SearchDamage(s, i + 1)
  }

  /** The groups a match yields: a target (absent for the damage pattern) and the value text. */
  datatype Hit = Hit(target: Option<string>, value: string)

  const HealLead: string := "heals "
  const HealSep: string := " for "
  const ManaLead: string := "grants mana to "
  const ManaSep: string := ": +"
  const DecayLead: string := "inflicts decay on "
  const DecaySep: string := ": -"

  /** Whether a target-and-value pattern matches somewhere in s. */
  ghost predicate Matches(s: string, lead: string, sep: string) {
    exists p: nat, k: nat :: TaggedAt(s, lead, sep, p, k)
  }

  /** Whether the damage pattern matches somewhere in s. */
  ghost predicate DamageMatches(s: string) {
    exists p: nat :: DamageAt(s, p)
  }

  /** A numeral as `[\d.]+` matches it: at least one digit or dot, and nothing else. */
  predicate IsNumeral(t: string) {
    |t| >= 1 && forall c :: c in t ==> IsNumeralChar(c)
  }

  /** The groups of the first match of a target-and-value pattern: a non-empty target and a
    * numeral. */
  function TaggedHit(s: string, lead: string, sep: string): (h: Option<Hit>)
    ensures h.Some? <==> Matches(s, lead, sep)
    ensures h.Some? ==> h.value.target.Some? && |h.value.target.value| >= 1 && IsNumeral(h.value.value)
  {
    match SearchTagged(s, lead, sep, 0)
    case None => None
    case Some((p, k)) =>
      var t := p + |lead|;
      Some(Hit(Some(s[t..t + k]), NumeralAt(s, t + k + |sep|)))
  }

  /** The groups of the first match of the damage pattern: a numeral and no target. */
  function DamageHit(s: string): (h: Option<Hit>)
    ensures h.Some? <==> DamageMatches(s)
    ensures h.Some? ==> h.value.target.None? && IsNumeral(h.value.value)
  {
    match SearchDamage(s, 0)
    case None => None
    case Some(p) => Some(Hit(None, NumeralAt(s, p + 6)))
  }

  /** `heal_match or mana_match or decay_match or damage_match` (orchestrator.py:92-97). */
  function FirstHit(s: string): (h: Option<Hit>)
    ensures h.Some? ==> IsNumeral(h.value.value)
    ensures h.Some? && h.value.target.Some? ==> |h.value.target.value| >= 1
    ensures Matches(s, HealLead, HealSep) ==> h.Some? && h.value.target.Some?
  {
    var heal := TaggedHit(s, HealLead, HealSep);
    var mana := TaggedHit(s, ManaLead, ManaSep);
    var decay := TaggedHit(s, DecayLead, DecaySep);
    if heal.Some? then heal else if mana.Some? then mana else if decay.Some? then decay else DamageHit(s)
  }

  /** The patterns are tried in order: a target is reported exactly when one of the heal, mana or
    * decay patterns matches, a heal match wins over all others, the damage pattern decides only
    * when none of the others matches, and there is no hit exactly when no pattern matches. Every
    * value found is a numeral. */
  lemma FirstHitOrder(s: string)
    ensures FirstHit(s).Some? && FirstHit(s).value.target.Some? <==>
              Matches(s, HealLead, HealSep) || Matches(s, ManaLead, ManaSep) || Matches(s, DecayLead, DecaySep)
    ensures Matches(s, HealLead, HealSep) ==> FirstHit(s) == TaggedHit(s, HealLead, HealSep)
    ensures (!Matches(s, HealLead, HealSep) && !Matches(s, ManaLead, ManaSep) && !Matches(s, DecayLead, DecaySep))
              ==> FirstHit(s) == DamageHit(s)
    ensures FirstHit(s).None? <==>
              !Matches(s, HealLead, HealSep) && !Matches(s, ManaLead, ManaSep)
              && !Matches(s, DecayLead, DecaySep) && !DamageMatches(s)
    ensures FirstHit(s).Some? ==> IsNumeral(FirstHit(s).value.value)
  {
  }

  /** What float() accepts of a run of digits and dots: at least one digit and at most one dot.
    * Any other run (".", "1.2.3") makes float() raise ValueError. */
  predicate FloatAccepts(t: string): (ok: bool)
    ensures ok ==> |t| >= 1 && multiset(t)['.'] <= 1
    ensures |t| >= 1 && (forall i :: 0 <= i < |t| ==> '0' <= t[i] <= '9') ==> ok
    ensures (forall i :: 0 <= i < |t| ==> t[i] == '.') ==> !ok
  {
    assert (forall i :: 0 <= i < |t| ==> '0' <= t[i] <= '9') ==> '.' !in t;
    multiset(t)['.'] <= 1 && exists i :: 0 <= i < |t| && '0' <= t[i] <= '9'
  }

  // ---------------------------------------------------------------------------------------------
  // The classifier

  /** The note columns the classifier fills; the value is kept as the numeral text matched. */
  datatype Note = Note(kind: EventKind, source: Option<string>, target: Option<string>, value: Option<string>)

  /**
   * _parse_message (orchestrator.py:70-103). None stands for the ValueError float() raises when
   * the matched value is not a number. A target is only ever reported together with a value,
   * and a divine note always names a deity as its source.
   */
  function ParseMessage(message: string): (r: Option<Note>)
    ensures r.Some? && r.value.target.Some? ==> r.value.value.Some?
    ensures r.Some? && r.value.kind == DivineKind ==> r.value.source.Some? && IsGodName(r.value.source.value)
    ensures r.Some? && r.value.value.Some? ==> FloatAccepts(r.value.value.value)
  {
    var (source, rest) := SplitSource(Strip(message));
    ParseRest(source, rest, Classify(source, rest))
  }

  /** The part of _parse_message after the event type is known (orchestrator.py:87-103): a
    * missing or empty source falls back to the first word when that is a deity's name, and the
    * target and value come from the first pattern that matches the rest. */
  function ParseRest(source: Option<string>, rest: string, kind: EventKind): (r: Option<Note>)
    ensures r.Some? ==> r.value.kind == kind
    ensures r.Some? && r.value.target.Some? ==> r.value.value.Some?
    ensures r.Some? && r.value.value.Some? ==> FloatAccepts(r.value.value.value)
    ensures r.Some? && source.Some? && source != Some("") ==> r.value.source == source
    ensures r.Some? && (source.None? || source == Some("")) ==>
              r.value.source == if IsGodName(FirstWord(rest)) then Some(FirstWord(rest)) else source
    ensures r.None? <==> FirstHit(rest).Some? && !FloatAccepts(FirstHit(rest).value.value)
    ensures r.Some? && FirstHit(rest).None? ==> r.value.target.None? && r.value.value.None?
    ensures r.Some? && FirstHit(rest).Some? ==>
              r.value.target == FirstHit(rest).value.target && r.value.value == Some(FirstHit(rest).value.value)
  {
    var word := FirstWord(rest);
    var source' := if (source.None? || source == Some("")) && IsGodName(word) then Some(word) else source;
    var hit := FirstHit(rest);
    match hit
    case None => Some(Note(kind, source', None, None))
    case Some(h) => if FloatAccepts(h.value) then Some(Note(kind, source', h.target, Some(h.value))) else None
  }

  // ---------------------------------------------------------------------------------------------
  // Properties of the classifier

  /** A line a deity's name opens with ": " is divine, with that deity as its source, unless the
    * rest is itself a cosmic banner. */
  lemma GodPrefixIsDivine(message: string, god: string, text: string)
    requires IsGodName(god) && Strip(message) == god + Separator + text
    requires !StartsWith(text, CosmicBanner)
    ensures ParseMessage(message).Some? ==>
              ParseMessage(message).value.kind == DivineKind && ParseMessage(message).value.source == Some(god)
  {
    var trimmed := Strip(message);
    FirstSeparatorAfter(trimmed, |god|);
  }

  /** If no ':' comes before position j and the separator occurs at j, the split is at j. */
  lemma FirstSeparatorAfter(s: string, j: nat)
    requires OccursAt(s, Separator, j)
    requires forall i :: 0 <= i < j ==> s[i] != ':'
    ensures SplitSource(s) == (Some(s[..j]), s[j + 2..])
  {
    forall i: nat | i < j
      ensures !OccursAt(s, Separator, i)
    {
      if i + 2 <= |s| {
        assert s[i..i + 2][0] == s[i];
      }
    }
    var r := FindFrom(s, Separator, 0);
    assert r.Some?;
  }

  /** The separators of the mana and decay patterns open with ": ", so wherever one of them
    * matches, the text holds a ": ". */
  lemma TaggedHoldsSeparator(s: string, lead: string, sep: string, p: nat, k: nat)
    requires StartsWith(sep, Separator) && TaggedAt(s, lead, sep, p, k)
    ensures OccursAt(s, Separator, p + |lead| + k)
  {
    var at := p + |lead| + k;
    assert s[at..at + 2] == s[at..at + |sep|][..2];
  }

  /** What follows the first separator holds no separator when the line holds only one. */
  lemma RestAfterOnlySeparator(trimmed: string)
    requires exists j: nat :: OccursAt(trimmed, Separator, j)
    requires forall i: nat, j: nat :: OccursAt(trimmed, Separator, i) && OccursAt(trimmed, Separator, j) ==> i == j
    ensures forall i: nat :: !OccursAt(SplitSource(trimmed).1, Separator, i)
  {
    var j := FindFrom(trimmed, Separator, 0).value;
    var rest := SplitSource(trimmed).1;
    assert rest == trimmed[j + 2..];
    forall i: nat | OccursAt(rest, Separator, i)
      ensures OccursAt(trimmed, Separator, j + 2 + i)
    {
      assert trimmed[j + 2 + i..j + 2 + i + 2] == rest[i..i + 2];
    }
  }

  /** With a single ": " in the stripped line, the mana and decay patterns, whose separators hold
    * ": " themselves, never match what is left after the split: a target can then only come from
    * the heal pattern. */
  lemma OneSeparatorHidesManaAndDecay(message: string)
    requires exists j: nat :: OccursAt(Strip(message), Separator, j)
    requires forall i: nat, j: nat :: OccursAt(Strip(message), Separator, i) && OccursAt(Strip(message), Separator, j) ==> i == j
    ensures !Matches(SplitSource(Strip(message)).1, ManaLead, ManaSep)
    ensures !Matches(SplitSource(Strip(message)).1, DecayLead, DecaySep)
  {
    var rest := SplitSource(Strip(message)).1;
    RestAfterOnlySeparator(Strip(message));
    forall p: nat, k: nat | TaggedAt(rest, ManaLead, ManaSep, p, k)
      ensures false
    {
      TaggedHoldsSeparator(rest, ManaLead, ManaSep, p, k);
    }
    forall p: nat, k: nat | TaggedAt(rest, DecayLead, DecaySep, p, k)
      ensures false
    {
      TaggedHoldsSeparator(rest, DecayLead, DecaySep, p, k);
    }
  }
}

module NotesLoggerFinding {
  import opened Wrappers
  import opened NotesLogger

  /**
   * The banner a cosmic event announces itself with (cosmic_event.py:75) opens with
   * "*** Cosmic Event: ", whose ": " is the first separator of the line. The split therefore
   * consumes the banner before the event type is decided, and unless the event's name itself
   * repeats the banner, such a line is never classified as a cosmic event.
   */
  lemma BannerLineIsNeverCosmic(message: string, name: string)
    requires Strip(message) == CosmicBanner + " " + name
    requires !StartsWith(name, CosmicBanner)
    ensures ParseMessage(message).Some? ==> ParseMessage(message).value.kind != CosmicEventKind
  {
    var trimmed := Strip(message);
    assert trimmed[..16] == "*** Cosmic Event";
    FirstSeparatorAfter(trimmed, 16);
    assert SplitSource(trimmed).1 == name;
  }

  /** The classifier with the banner checked on the stripped line before the split, as the
    * cosmic_event type evidently intends; every other line is classified as before. */
  function ParseMessageBannerFirst(message: string): (r: Option<Note>)
    ensures StartsWith(Strip(message), CosmicBanner) && r.Some? ==> r.value.kind == CosmicEventKind
    ensures !StartsWith(Strip(message), CosmicBanner) ==> r == ParseMessage(message)
    ensures r.None? <==> ParseMessage(message).None?
  {
    var trimmed := Strip(message);
    var (source, rest) := SplitSource(trimmed);
    var kind := if StartsWith(trimmed, CosmicBanner) then CosmicEventKind else Classify(source, rest);
    ParseRest(source, rest, kind)
  }

  /** With the correction, the banner line of any event is a cosmic event note. */
  lemma BannerLineIsCosmic(message: string, name: string)
    requires Strip(message) == CosmicBanner + " " + name
    ensures ParseMessageBannerFirst(message).Some? ==> ParseMessageBannerFirst(message).value.kind == CosmicEventKind
  {
    assert StartsWith(Strip(message), CosmicBanner);
  }
}
