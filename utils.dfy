/** The helpers of `VPLEXUtils`: reading tags out of the configuration
    document's elements, picking a port group, collecting WWPNs, shortening
    group identifiers, and rendering elapsed time. */
module Utils {
  import opened Basics
  import opened Text

  // ------------------------------------------------------ document elements

  /** What `childNodes[0].nodeValue` finds: no child nodes at all, a first child whose
      `nodeValue` is None (an element node), or a text child. */
  datatype Child = NoChild | NullValue | TextChild(value: string)

  /** An element as `getElementsByTagName` returns it: its tag and its first child. */
  datatype Node = Node(tagName: string, firstChild: Child)

  /** A parent element, seen through the descendants it holds in document order. */
  datatype Element = Element(descendants: seq<Node>)

  /** Position k holds the first node with the tag. */
  predicate FirstWithTag(ns: seq<Node>, tag: string, k: int)
  {
    0 <= k < |ns| && ns[k].tagName == tag && forall j :: 0 <= j < k ==> ns[j].tagName != tag
  }

  /** The positions of the nodes with the tag. */
  function TaggedPositions(ns: seq<Node>, tag: string): set<nat>
  {
    set i: nat | i < |ns| && ns[i].tagName == tag
  }

  /** `element.getElementsByTagName(tag)`: the descendants with that tag. The result
      holds every one of them and nothing else, one entry per tagged position, and
      starts with the first in document order. */
  function ElementsByTagName(e: Element, tag: string): (r: seq<Node>)
    ensures TagFilter(e.descendants, tag, r)
    decreases |e.descendants|
  {
    var d := e.descendants;
    if d == [] then
      assert TaggedPositions(d, tag) == {};
      []
    else
      var front := ElementsByTagName(Element(d[..|d| - 1]), tag);
      TagFilterSnoc(d, tag, front);
      if d[|d| - 1].tagName == tag then front + [d[|d| - 1]] else front
  }

  /** r holds only nodes of ns with the tag, all of them, as many as there are
      tagged positions, and starts with the first of them. */
  ghost predicate TagFilter(ns: seq<Node>, tag: string, r: seq<Node>)
  {
    (forall i :: 0 <= i < |r| ==> r[i].tagName == tag && r[i] in ns) &&
    (forall n :: n in ns && n.tagName == tag ==> n in r) &&
    |r| == |TaggedPositions(ns, tag)| &&
    (forall k :: FirstWithTag(ns, tag, k) ==> |r| > 0 && r[0] == ns[k])
  }

  /** The filter of d is the filter of its front, extended by its last node when tagged. */
  lemma TagFilterSnoc(d: seq<Node>, tag: string, front: seq<Node>)
    requires |d| > 0 && TagFilter(d[..|d| - 1], tag, front)
    ensures TagFilter(d, tag, if d[|d| - 1].tagName == tag then front + [d[|d| - 1]] else front)
  {
    var last := d[|d| - 1];
    var f := d[..|d| - 1];
    var r := if last.tagName == tag then front + [last] else front;
    forall i | 0 <= i < |r|
      ensures r[i].tagName == tag && r[i] in d
    {
      if i < |front| {
        assert r[i] == front[i] && front[i] in f;
      }
    }
    forall n | n in d && n.tagName == tag
      ensures n in r
    {
      var j :| 0 <= j < |d| && d[j] == n;
      if j < |d| - 1 {
        assert f[j] == n;
      }
    }
    TaggedPositionsSnoc(d, tag);
    FirstWithTagSnoc(d, tag, front);
  }

  lemma TaggedPositionsSnoc(d: seq<Node>, tag: string)
    requires |d| > 0
    ensures TaggedPositions(d, tag) == TaggedPositions(d[..|d| - 1], tag) +
              (if d[|d| - 1].tagName == tag then {|d| - 1} else {})
    ensures |TaggedPositions(d, tag)| == |TaggedPositions(d[..|d| - 1], tag)| +
              (if d[|d| - 1].tagName == tag then 1 else 0)
  {
    var front := TaggedPositions(d[..|d| - 1], tag);
    assert (|d| - 1) !in front;
    if d[|d| - 1].tagName == tag {
      assert |front + {|d| - 1}| == |front| + 1;
    }
  }

  /** The first tagged node of d is the first of its front, unless the front has none. */
  lemma FirstWithTagSnoc(d: seq<Node>, tag: string, front: seq<Node>)
    requires |d| > 0
    requires forall i :: 0 <= i < |front| ==> front[i].tagName == tag && front[i] in d[..|d| - 1]
    requires forall k :: FirstWithTag(d[..|d| - 1], tag, k) ==> |front| > 0 && front[0] == d[k]
    ensures forall k :: FirstWithTag(d, tag, k) ==>
              var r := if d[|d| - 1].tagName == tag then front + [d[|d| - 1]] else front;
              |r| > 0 && r[0] == d[k]
  {
    forall k | FirstWithTag(d, tag, k)
      ensures var r := if d[|d| - 1].tagName == tag then front + [d[|d| - 1]] else front;
              |r| > 0 && r[0] == d[k]
    {
      if k < |d| - 1 {
        assert FirstWithTag(d[..|d| - 1], tag, k);
      }
    }
  }

  /** `_process_tag`: the first element with the tag, its first child's value, stripped
      when non-empty. A missing element or a missing child raises an IndexError that is
      caught, and a child with a None value is returned as is, so all three give None. */
  function ProcessTag(e: Element, tag: string): (r: Option<string>)
    ensures r.Some? <==>
      exists k :: FirstWithTag(e.descendants, tag, k) && e.descendants[k].firstChild.TextChild?
    ensures forall k :: FirstWithTag(e.descendants, tag, k) && e.descendants[k].firstChild.TextChild? ==>
      r == Some(Strip(e.descendants[k].firstChild.value))
    ensures (forall n :: n in e.descendants ==> n.tagName != tag) ==> r.None?
  {
    var found := ElementsByTagName(e, tag);
    if |found| == 0 then
      NoFirstWithoutTagged(e.descendants, tag);
      None
    else
      FirstWithTagExists(e.descendants, tag, found[0]);
      match found[0].firstChild
      case NoChild => None
      case NullValue => None
      case TextChild(v) => Some(if v != "" then Strip(v) else v)
  }

  /** Without a tagged node there is no first one. */
  lemma NoFirstWithoutTagged(ns: seq<Node>, tag: string)
    requires forall n :: n in ns ==> n.tagName != tag
    ensures forall k :: !FirstWithTag(ns, tag, k)
  {
  }

  /** A tagged node has a first tagged node before or at it. */
  lemma FirstWithTagExists(ns: seq<Node>, tag: string, n: Node)
    requires n in ns && n.tagName == tag
    ensures exists k :: FirstWithTag(ns, tag, k)
  {
    var i :| 0 <= i < |ns| && ns[i] == n;
    FirstWithTagBefore(ns, tag, i);
  }

  lemma {:induction false} FirstWithTagBefore(ns: seq<Node>, tag: string, i: int)
    requires 0 <= i < |ns| && ns[i].tagName == tag
    ensures exists k :: 0 <= k <= i && FirstWithTag(ns, tag, k)
    decreases i
  {
    if exists j :: 0 <= j < i && ns[j].tagName == tag {
      var j :| 0 <= j < i && ns[j].tagName == tag;
      FirstWithTagBefore(ns, tag, j);
    } else {
      assert FirstWithTag(ns, tag, i);
    }
  }

  /** Some found node has a child whose value is None, so `.strip()` raises. */
  predicate HasNullChild(found: seq<Node>)
  {
    exists i :: 0 <= i < |found| && found[i].firstChild.NullValue?
  }

  /** `set(filter(None, [n.childNodes[0].nodeValue.strip() for n in found if n.childNodes]))`,
      for found nodes whose children hold text. */
  function StrippedNames(found: seq<Node>): (names: set<string>)
    ensures "" !in names
    ensures forall i :: 0 <= i < |found| && found[i].firstChild.TextChild? && Strip(found[i].firstChild.value) != "" ==>
              Strip(found[i].firstChild.value) in names
    ensures forall x :: x in names ==>
              exists i :: 0 <= i < |found| && found[i].firstChild.TextChild? && x == Strip(found[i].firstChild.value)
  {
    var names := set n | n in found && n.firstChild.TextChild? && Strip(n.firstChild.value) != "" :: Strip(n.firstChild.value);
    assert forall x :: x in names ==> exists n :: n in found && n.firstChild.TextChild? && x == Strip(n.firstChild.value);
    names
  }

  predicate NoDuplicates(s: seq<string>) {
    forall i, j :: 0 <= i < j < |s| ==> s[i] != s[j]
  }

  /** Python's `list(some_set)`: every member once, in an order the language leaves open. */
  method SetToList(s: set<string>) returns (r: seq<string>)
    ensures (set x | x in r) == s
    ensures NoDuplicates(r)
    ensures |r| == |s|
  {
    r := [];
    var rest := s;
    while rest != {}
      invariant rest <= s
      invariant (set x | x in r) == s - rest
      invariant NoDuplicates(r)
      invariant |r| + |rest| == |s|
      decreases rest
    {
      var x :| x in rest;
      assert x !in r;
      assert (set y | y in r + [x]) == (set y | y in r) + {x};
      r := r + [x];
      rest := rest - {x};
    }
  }

  /** The distinct non-blank port-group names declared under e. */
  function PortGroupNames(e: Element): set<string>
  {
    StrippedNames(ElementsByTagName(e, "PortGroup"))
  }

  /** `_get_random_portgroup`: an AttributeError when a port-group element's child has
      no value, `None` when no usable name is declared, otherwise one of the declared
      names; which one is left open (the source draws it at random). */
  method GetRandomPortgroup(e: Element) returns (r: Result<Option<string>, Error>)
    ensures r.Failure? <==> HasNullChild(ElementsByTagName(e, "PortGroup"))
    ensures r.Failure? ==> r.error == AttributeMissing("strip")
    ensures r == Success(None) <==> !HasNullChild(ElementsByTagName(e, "PortGroup")) && PortGroupNames(e) == {}
    ensures r.Success? && r.value.Some? ==> r.value.value in PortGroupNames(e) && r.value.value != ""
  {
    var found := ElementsByTagName(e, "PortGroup");
    if |found| > 0 {
      if HasNullChild(found) {
        return Failure(AttributeMissing("strip"));
      }
      var names := SetToList(StrippedNames(found));
      if |names| > 0 {
        var k :| 0 <= k < |names|;
        assert names[k] in (set x | x in names);
        return Success(Some(names[k]));
      } else {
        assert (set x | x in names) == {};
      }
    }
    return Success(None);
  }

  /** `_get_vplex_wwpns`: `None` exactly when no WWPN element exists, an AttributeError
      when a WWPN element's child has no value, and otherwise the distinct non-blank
      values, each once. */
  method GetVplexWwpns(e: Element) returns (r: Result<Option<seq<string>>, Error>)
    ensures r.Failure? <==> HasNullChild(ElementsByTagName(e, "WWPN"))
    ensures r.Failure? ==> r.error == AttributeMissing("strip")
    ensures r == Success(None) <==> |ElementsByTagName(e, "WWPN")| == 0
    ensures r.Success? && r.value.Some? ==>
      (set x | x in r.value.value) == StrippedNames(ElementsByTagName(e, "WWPN")) &&
      NoDuplicates(r.value.value) && forall i :: 0 <= i < |r.value.value| ==> r.value.value[i] != ""
  {
    var names: Option<seq<string>> := None;
    var found := ElementsByTagName(e, "WWPN");
    if |found| > 0 {
      if HasNullChild(found) {
        return Failure(AttributeMissing("strip"));
      }
      var list := SetToList(StrippedNames(found));
      assert forall i :: 0 <= i < |list| ==> list[i] in (set x | x in list);
      names := Some(list);
    }
    r := Success(names);
  }

  /** The eleven keys of the connection record `_get_vplex_connection_info` builds. */
  const ConnectionKeys: set<string> := {
    "MgmtServerIp", "MgmtServerPort", "Username", "Password", "SLO", "Workload",
    "Array", "VPD83T3", "EMC-SYMMETRIX", "Pool", "Cluster" }

  /** The record has eleven distinct keys. */
  lemma ConnectionKeysCount()
    ensures |ConnectionKeys| == 11
  {
  }

  /** `_get_vplex_connection_info`: one entry per key, each the tag's processed value.
      The loop over the entries notices a missing value but acts on nothing, so a
      `None` is handed on rather than rejected. */
  method GetVplexConnectionInfo(e: Element) returns (connargs: map<string, Option<string>>)
    ensures connargs.Keys == ConnectionKeys
    ensures forall k :: k in connargs ==> connargs[k] == ProcessTag(e, k)
  {
    // The source writes the dictionary out key by key; this is the same dictionary.
    connargs := map k | k in ConnectionKeys :: ProcessTag(e, k);
    var pending := connargs.Keys;
    while pending != {}
      decreases pending
    {
      var k :| k in pending;
      if connargs[k].None? {
        // The source builds an error message here and then neither raises nor returns it.
      }
      pending := pending - {k};
    }
  }

  // ------------------------------------------------------------ truncation

  /** `truncate_string`: a string longer than maxNum keeps its first and its last
      maxNum / 2 characters (integer division); a shorter one is kept whole. */
  function TruncateString(s: string, maxNum: nat): (r: string)
    ensures |s| <= maxNum ==> r == s
    ensures |s| > maxNum ==> |r| == 2 * (maxNum / 2) <= maxNum
    ensures |s| > maxNum ==> r[..maxNum / 2] <= s
    ensures |s| > maxNum ==> r[maxNum / 2..] == s[|s| - maxNum / 2..]
  {
    if |s| > maxNum then
      var newNum := |s| - maxNum / 2;
      s[..maxNum / 2] + s[newNum..]
    else s
  }

  /** Whatever goes in, the result is never longer than maxNum or than the input. */
  lemma TruncateStringBounded(s: string, maxNum: nat)
    ensures |TruncateString(s, maxNum)| <= maxNum || TruncateString(s, maxNum) == s
    ensures |TruncateString(s, maxNum)| <= |s|
  {
  }

  /** Truncating again changes nothing. */
  lemma TruncateStringIdempotent(s: string, maxNum: nat)
    ensures TruncateString(TruncateString(s, maxNum), maxNum) == TruncateString(s, maxNum)
  {
  }

  // ------------------------------------------------------------ time deltas

  const SecondsPerDay: int := 86400

  /** Python's `int(x)` on a float: truncation toward zero. */
  function TruncateToInt(x: real): (n: int)
    ensures x >= 0.0 ==> n as real <= x < n as real + 1.0
    ensures x < 0.0 ==> n as real - 1.0 < x <= n as real
  {
    if x >= 0.0 then x.Floor else -((-x).Floor)
  }

  /** The "H:MM:SS" part of a timedelta's text, for 0 <= secs < one day: the minutes
      and seconds come from `divmod(secs, 60)`, the hours from `divmod(minutes, 60)`. */
  function Clock(secs: nat): string
    requires secs < SecondsPerDay
  {
    var minutes := secs / 60;
    NatToString(minutes / 60) + ":" + Pad2(minutes % 60) + ":" + Pad2(secs % 60)
  }

  /** `str(datetime.timedelta(seconds=n))`: whole days (floored) as "D day[s], ",
      then the remaining seconds as H:MM:SS. */
  function TimeDeltaString(n: int): string
  {
    var days := n / SecondsPerDay;
    var clock := Clock(n % SecondsPerDay);
    if days == 0 then clock
    else IntToString(days) + " day" + (if days == 1 || days == -1 then "" else "s") + ", " + clock
  }

  /** `get_time_delta`: the elapsed seconds, truncated to a whole number, as a timedelta's text. */
  function GetTimeDelta(startTime: real, endTime: real): string
  {
    TimeDeltaString(TruncateToInt(endTime - startTime))
  }

  /** Reads an "H:MM:SS" text back as a number of seconds. */
  function ParseClock(r: string): Option<nat>
  {
    if |r| >= 7 && r[|r| - 6] == ':' && r[|r| - 3] == ':' && AllDigits(r[..|r| - 6]) &&
       IsDigit(r[|r| - 5]) && IsDigit(r[|r| - 4]) && IsDigit(r[|r| - 2]) && IsDigit(r[|r| - 1])
    then
      var minutes := 10 * DigitValue(r[|r| - 5]) + DigitValue(r[|r| - 4]);
      var seconds := 10 * DigitValue(r[|r| - 2]) + DigitValue(r[|r| - 1]);
      Some(3600 * ParseNat(r[..|r| - 6]) + 60 * minutes + seconds)
    else None
  }

  /** An hours field and two two-digit fields, joined by colons, read back field by field. */
  lemma ParseClockFields(hs: string, h: nat, m: nat, s: nat)
    requires hs == NatToString(h) && m < 60 && s < 60
    ensures ParseClock(hs + ":" + Pad2(m) + ":" + Pad2(s)) == Some(3600 * h + 60 * m + s)
  {
    var r := hs + ":" + Pad2(m) + ":" + Pad2(s);
    assert r[..|r| - 6] == hs;
    assert r[|r| - 5..] == Pad2(m) + ":" + Pad2(s);
    ParseNatToString(h);
  }

  /** Under a day, the text is exactly H:MM:SS with two-digit minutes and seconds and
      no day part, and it reads back as the number of seconds it renders. */
  lemma TimeDeltaUnderADay(n: int)
    requires 0 <= n < SecondsPerDay
    ensures TimeDeltaString(n) == Clock(n)
    ensures ParseClock(TimeDeltaString(n)) == Some(n)
  {
    var minutes := n / 60;
    ParseClockFields(NatToString(minutes / 60), minutes / 60, minutes % 60, n % 60);
  }

  /** A non-negative delta under a day renders as H:MM:SS of its whole seconds. */
  lemma GetTimeDeltaUnderADay(startTime: real, endTime: real)
    requires 0.0 <= endTime - startTime < SecondsPerDay as real
    ensures 0 <= TruncateToInt(endTime - startTime) < SecondsPerDay
    ensures GetTimeDelta(startTime, endTime) == Clock(TruncateToInt(endTime - startTime))
    ensures ParseClock(GetTimeDelta(startTime, endTime)) == Some(TruncateToInt(endTime - startTime))
  {
    TimeDeltaUnderADay(TruncateToInt(endTime - startTime));
  }
}
