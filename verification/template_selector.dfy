/**
 The template picker (src/components/templates/TemplateSelector.tsx): its
 search box and lock filter, the list of catalogue entries they let
 through, each marked locked or not for the user's level, and the count of
 templates the level may use. The dialog's state is a small record with its
 transitions; markup and focus handling are not modelled.
 */
module TemplateSelection {
  import opened Common
  import opened Seqs
  import opened Templates

  /** The "All" / "Available" / "Locked" buttons. */
  datatype LockFilter = All | Available | Locked

  /** The picker's state: whether the dialog is open, the search text and
      the lock filter. */
  datatype SelectorState = SelectorState(open: bool, query: string, filter: LockFilter)

  /** The state a picker starts in. */
  function InitialState(open: bool): (s: SelectorState)
    ensures s.open == open && s.query == "" && s.filter == All
  {
    SelectorState(open, "", All)
  }

  /** The dialog opens or closes. Closing clears the search and shows every
      template again; opening keeps both. */
  function OpenChanged(s: SelectorState, open: bool): (r: SelectorState)
    ensures r.open == open
    ensures !open ==> r.query == "" && r.filter == All
    ensures open ==> r.query == s.query && r.filter == s.filter
  {
    if open then s.(open := true) else SelectorState(false, "", All)
  }

  /** The "Reset" button of the empty result. */
  function Reset(s: SelectorState): (r: SelectorState)
    ensures r.open == s.open && r.query == "" && r.filter == All
  {
    s.(query := "", filter := All)
  }

  /** Resetting and closing leave the same search and filter, and a second
      reset changes nothing. */
  lemma ResetMatchesClose(s: SelectorState)
    ensures Reset(Reset(s)) == Reset(s)
    ensures OpenChanged(s, false) == Reset(s).(open := false)
  {
  }

  /** The characters `String.prototype.trim` removes: white space and line
      terminators as ECMA-262 defines them. */
  predicate JsWhitespace(c: char)
  {
    c == '\t' || c == '\n' || c == '\U{0B}' || c == '\U{0C}' || c == '\r' || c == ' '
      || c == '\U{A0}' || c == '\U{1680}' || ('\U{2000}' <= c <= '\U{200A}')
      || c == '\U{2028}' || c == '\U{2029}' || c == '\U{202F}' || c == '\U{205F}'
      || c == '\U{3000}' || c == '\U{FEFF}'
  }

  /** Every character of `s` is white space. */
  predicate AllWhitespace(s: string)
  {
    forall i :: 0 <= i < |s| ==> JsWhitespace(s[i])
  }

  /** The number of white-space characters `s` starts with. */
  function LeadingCount(s: string): (n: nat)
    ensures n <= |s|
    ensures AllWhitespace(s[..n])
    ensures n < |s| ==> !JsWhitespace(s[n])
  {
    if s != [] && JsWhitespace(s[0]) then
      var n := 1 + LeadingCount(s[1..]);
      assert forall k :: 1 <= k < n ==> s[..n][k] == s[1..][..n - 1][k - 1];
      n
    else 0
  }

  /** The number of white-space characters `s` ends with. */
  function TrailingCount(s: string): (n: nat)
    ensures n <= |s|
    ensures AllWhitespace(s[|s| - n..])
    ensures n < |s| ==> !JsWhitespace(s[|s| - n - 1])
  {
    if s != [] && JsWhitespace(s[|s| - 1]) then
      var n := 1 + TrailingCount(s[..|s| - 1]);
      n
    else 0
  }

  /** `s.trim()`: `s` with the white space at both ends removed; what
      remains sits inside `s` between two runs of white space. */
  function Trim(s: string): (r: string)
    ensures exists i :: 0 <= i <= |s| - |r| && r == s[i..i + |r|] && AllWhitespace(s[..i]) && AllWhitespace(s[i + |r|..])
    ensures r == [] || (!JsWhitespace(r[0]) && !JsWhitespace(r[|r| - 1]))
  {
    var i := LeadingCount(s);
    var t := s[i..];
    var j := TrailingCount(t);
    assert t[|t| - j..] == s[|s| - j..];
    s[i..|s| - j]
  }

  /** A string is all white space exactly when its leading white space is
      all of it. */
  lemma LeadingCountAll(s: string)
    ensures LeadingCount(s) == |s| <==> AllWhitespace(s)
  {
    if LeadingCount(s) == |s| {
      assert s[..|s|] == s;
    }
  }

  /** A query trims to nothing exactly when it is all white space. */
  lemma TrimEmptyIffBlank(s: string)
    ensures Trim(s) == "" <==> AllWhitespace(s)
  {
    LeadingCountAll(s);
    var i := LeadingCount(s);
    if i < |s| {
      var t := s[i..];
      var j := TrailingCount(t);
      assert |Trim(s)| == |t| - j;
    }
  }

  /** `s.toLowerCase()` on the ASCII letters. */
  function AsciiLower(s: string): (r: string)
    ensures |r| == |s|
    ensures forall i :: 0 <= i < |s| ==> r[i] == (if 'A' <= s[i] <= 'Z' then (s[i] as int + 32) as char else s[i])
    ensures forall i :: 0 <= i < |s| ==> !('A' <= r[i] <= 'Z')
  {
    seq(|s|, i requires 0 <= i < |s| => if 'A' <= s[i] <= 'Z' then (s[i] as int + 32) as char else s[i])
  }

  /** Lower-casing twice is lower-casing once. */
  lemma AsciiLowerIdempotent(s: string)
    ensures AsciiLower(AsciiLower(s)) == AsciiLower(s)
  {
  }

  /** `needle` occurs in `haystack` starting at position `i`. */
  predicate OccursAt(haystack: string, needle: string, i: int)
  {
    0 <= i && i + |needle| <= |haystack| && haystack[i..i + |needle|] == needle
  }

  /** `haystack.includes(needle)`, searched from the left. */
  function Includes(haystack: string, needle: string): (b: bool)
    decreases |haystack|
  {
    if |needle| > |haystack| then false
    else if haystack[..|needle|] == needle then true
    else Includes(haystack[1..], needle)
  }

  /** The search finds the needle exactly when it occurs somewhere. */
  lemma {:induction false} IncludesIffOccurs(haystack: string, needle: string)
    ensures Includes(haystack, needle) <==> exists i :: OccursAt(haystack, needle, i)
    decreases |haystack|
  {
    if |needle| > |haystack| {
    } else if haystack[..|needle|] == needle {
      assert OccursAt(haystack, needle, 0);
    } else {
      IncludesIffOccurs(haystack[1..], needle);
      if exists i :: OccursAt(haystack, needle, i) {
        var i :| OccursAt(haystack, needle, i);
        assert i != 0;
        assert haystack[1..][i - 1..i - 1 + |needle|] == haystack[i..i + |needle|];
        assert OccursAt(haystack[1..], needle, i - 1);
      }
      if exists i :: OccursAt(haystack[1..], needle, i) {
        var i :| OccursAt(haystack[1..], needle, i);
        assert haystack[1..][i..i + |needle|] == haystack[i + 1..i + 1 + |needle|];
        assert OccursAt(haystack, needle, i + 1);
      }
    }
  }

  /** The text a query is matched against: the id, a space and the name,
      lower-cased. */
  function Haystack(t: Template): string
  {
    AsciiLower(t.id + " " + t.name)
  }

  /** The query as it is used: trimmed, then lower-cased. */
  function NormalQuery(query: string): (q: string)
    ensures q == "" <==> AllWhitespace(query)
  {
    TrimEmptyIffBlank(query);
    AsciiLower(Trim(query))
  }

  /** The lock filter lets an entry with this lock state through. */
  predicate LockPasses(filter: LockFilter, locked: bool)
  {
    match filter
    case All => true
    case Available => !locked
    case Locked => locked
  }

  /** The template is locked for the level: `!canAccessTemplate(t.id, level)`. */
  predicate IsLocked(unlockAll: bool, level: SubscriptionLevel, t: Template)
  {
    !CanAccessTemplate(unlockAll, t.id, level)
  }

  /** The lock test as a function of the template. */
  function LockedFor(unlockAll: bool, level: SubscriptionLevel): Template -> bool
  {
    (t: Template) => IsLocked(unlockAll, level, t)
  }

  /** The test of the `filtered` list, with `q` the normalised query. */
  predicate Keep(locked: Template -> bool, q: string, filter: LockFilter, t: Template)
  {
    LockPasses(filter, locked(t)) && (q == "" || Includes(Haystack(t), q))
  }

  /** `Keep` as a test for `Filter`. */
  function KeepTest(locked: Template -> bool, q: string, filter: LockFilter): Template -> bool
  {
    (t: Template) => Keep(locked, q, filter, t)
  }

  /** The `filtered` computation over a list of templates. */
  function Select(s: seq<Template>, locked: Template -> bool, q: string, filter: LockFilter): (r: seq<Template>)
    ensures IsSubsequence(r, s) && |r| <= |s|
    ensures forall t :: t in r <==> t in s && LockPasses(filter, locked(t)) && (q == "" || Includes(Haystack(t), q))
    ensures forall i :: 0 <= i < |r| ==> LockPasses(filter, locked(r[i]))
  {
    FilterIsSubsequence(s, KeepTest(locked, q, filter));
    FilterMembers(s, KeepTest(locked, q, filter));
    Filter(s, KeepTest(locked, q, filter))
  }

  /** The templates the picker lists, in catalogue order. */
  function FilteredTemplates(unlockAll: bool, level: SubscriptionLevel, query: string, filter: LockFilter): (r: seq<Template>)
    ensures IsSubsequence(r, GetAllTemplates()) && |r| <= |GetAllTemplates()|
    ensures filter == Available ==> forall i :: 0 <= i < |r| ==> !IsLocked(unlockAll, level, r[i])
    ensures filter == Locked ==> forall i :: 0 <= i < |r| ==> IsLocked(unlockAll, level, r[i])
  {
    Select(GetAllTemplates(), LockedFor(unlockAll, level), NormalQuery(query), filter)
  }

  /** A template is listed exactly when it is in the catalogue, passes the
      lock filter, and, unless the query is blank, its lower-cased id and
      name contain the trimmed, lower-cased query. */
  lemma FilteredMembership(unlockAll: bool, level: SubscriptionLevel, query: string, filter: LockFilter, t: Template)
    ensures t in FilteredTemplates(unlockAll, level, query, filter) <==>
      t in GetAllTemplates() && LockPasses(filter, IsLocked(unlockAll, level, t))
      && (AllWhitespace(query) || Includes(Haystack(t), NormalQuery(query)))
  {
    assert LockedFor(unlockAll, level)(t) == IsLocked(unlockAll, level, t);
  }

  /** A card of the list: the template and whether it is locked. */
  datatype Entry = Entry(template: Template, locked: bool)

  /** The `filtered` list with each template's `locked` flag. */
  function Filtered(unlockAll: bool, level: SubscriptionLevel, query: string, filter: LockFilter): (r: seq<Entry>)
    ensures |r| == |FilteredTemplates(unlockAll, level, query, filter)|
    ensures forall i :: 0 <= i < |r| ==> r[i].template == FilteredTemplates(unlockAll, level, query, filter)[i]
    ensures forall i :: 0 <= i < |r| ==> (r[i].locked <==> !CanAccessTemplate(unlockAll, r[i].template.id, level))
  {
    var kept := FilteredTemplates(unlockAll, level, query, filter);
    seq(|kept|, i requires 0 <= i < |kept| => Entry(kept[i], IsLocked(unlockAll, level, kept[i])))
  }

  /** The lock filter alone, as a test for `Filter`. */
  function LockTest(locked: Template -> bool, filter: LockFilter): Template -> bool
  {
    (t: Template) => LockPasses(filter, locked(t))
  }

  /** With an empty query only the lock filter applies. */
  lemma SelectBlank(s: seq<Template>, locked: Template -> bool, filter: LockFilter)
    ensures Select(s, locked, "", filter) == Filter(s, LockTest(locked, filter))
  {
    FilterCongruent(s, KeepTest(locked, "", filter), LockTest(locked, filter));
  }

  /** A blank query filters by lock state alone. */
  lemma BlankQueryFiltersByLockOnly(unlockAll: bool, level: SubscriptionLevel, query: string, filter: LockFilter)
    requires AllWhitespace(query)
    ensures FilteredTemplates(unlockAll, level, query, filter)
            == Filter(GetAllTemplates(), LockTest(LockedFor(unlockAll, level), filter))
  {
    SelectBlank(GetAllTemplates(), LockedFor(unlockAll, level), filter);
  }

  /** Splitting a selection by lock state. */
  lemma SelectSplit(s: seq<Template>, locked: Template -> bool, q: string)
    ensures multiset(Select(s, locked, q, All)) == multiset(Select(s, locked, q, Available)) + multiset(Select(s, locked, q, Locked))
    ensures |Select(s, locked, q, All)| == |Select(s, locked, q, Available)| + |Select(s, locked, q, Locked)|
  {
    FilterSplit(s, KeepTest(locked, q, All), KeepTest(locked, q, Available), KeepTest(locked, q, Locked));
  }

  /** For a fixed query, "All" lists exactly the templates of "Available"
      and of "Locked" together. */
  lemma AllIsAvailablePlusLocked(unlockAll: bool, level: SubscriptionLevel, query: string)
    ensures multiset(FilteredTemplates(unlockAll, level, query, All))
            == multiset(FilteredTemplates(unlockAll, level, query, Available))
               + multiset(FilteredTemplates(unlockAll, level, query, Locked))
    ensures |FilteredTemplates(unlockAll, level, query, All)|
            == |FilteredTemplates(unlockAll, level, query, Available)| + |FilteredTemplates(unlockAll, level, query, Locked)|
  {
    SelectSplit(GetAllTemplates(), LockedFor(unlockAll, level), NormalQuery(query));
  }

  /** No template is listed both under "Available" and under "Locked". */
  lemma AvailableAndLockedDisjoint(unlockAll: bool, level: SubscriptionLevel, query: string, t: Template)
    ensures !(t in FilteredTemplates(unlockAll, level, query, Available) && t in FilteredTemplates(unlockAll, level, query, Locked))
  {
    FilteredMembership(unlockAll, level, query, Available, t);
    FilteredMembership(unlockAll, level, query, Locked, t);
  }

  /** The access test of `availableCount`. */
  function AccessTest(unlockAll: bool, level: SubscriptionLevel): Template -> bool
  {
    (t: Template) => CanAccessTemplate(unlockAll, t.id, level)
  }

  /** `templates.filter(t => canAccessTemplate(t.id, level))`. */
  function AccessibleTemplates(unlockAll: bool, level: SubscriptionLevel): (r: seq<Template>)
    ensures forall t :: t in r <==> t in GetAllTemplates() && CanAccessTemplate(unlockAll, t.id, level)
    ensures unlockAll ==> r == GetAllTemplates()
  {
    var all := GetAllTemplates();
    FilterMembers(all, AccessTest(unlockAll, level));
    assert unlockAll ==> Filter(all, AccessTest(unlockAll, level)) == all by {
      if unlockAll {
        assert forall t :: AccessTest(unlockAll, level)(t);
        FilterKeepsAll(all, AccessTest(unlockAll, level));
      }
    }
    Filter(all, AccessTest(unlockAll, level))
  }

  /** `availableCount`: how many templates the level may use. */
  function AvailableCount(unlockAll: bool, level: SubscriptionLevel): (n: nat)
    ensures n <= |GetAllTemplates()|
    ensures unlockAll ==> n == |GetAllTemplates()|
  {
    |AccessibleTemplates(unlockAll, level)|
  }

  /** Over any list, the accessible templates are those the "Available"
      filter keeps. */
  lemma AccessIsAvailable(s: seq<Template>, unlockAll: bool, level: SubscriptionLevel)
    ensures Filter(s, AccessTest(unlockAll, level)) == Filter(s, LockTest(LockedFor(unlockAll, level), Available))
  {
    FilterCongruent(s, AccessTest(unlockAll, level), LockTest(LockedFor(unlockAll, level), Available));
  }

  /** The badge's count is the length of the "Available" list for a blank
      query. */
  lemma AvailableCountMatchesAvailableList(unlockAll: bool, level: SubscriptionLevel)
    ensures AvailableCount(unlockAll, level) == |FilteredTemplates(unlockAll, level, "", Available)|
  {
    assert AllWhitespace("");
    BlankQueryFiltersByLockOnly(unlockAll, level, "", Available);
    AccessIsAvailable(GetAllTemplates(), unlockAll, level);
  }

  /** Without the override, the badge's count is the length of the level's
      template list. */
  lemma AvailableCountMatchesSubscriptionList(level: SubscriptionLevel)
    ensures AvailableCount(false, level) == |GetTemplatesBySubscription(level)|
  {
    var all := GetAllTemplates();
    var allowed := AllowedBy(TierForLevel(level));
    forall i | 0 <= i < |all| ensures AccessTest(false, level)(all[i]) == allowed(all[i]) {
      SubscriptionListMatchesAccess(level, all[i]);
      FilterMembers(all, allowed);
    }
    FilterCongruent(all, AccessTest(false, level), allowed);
  }
}
