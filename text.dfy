/** String primitives the driver relies on: Python's decimal rendering of
    integers (`str(i)`, `%d`, `%02d`), `str.strip()`, the appliance shell's
    splitting of an argument string into words, and the ", " port list. */
module Text {

  // ---------------------------------------------------------------- digits

  predicate IsDigit(c: char) { '0' <= c <= '9' }

  function DigitChar(d: nat): (c: char)
    requires d < 10
    ensures IsDigit(c)
  {
    (d + '0' as int) as char
  }

  function DigitValue(c: char): (d: nat)
    requires IsDigit(c)
    ensures d < 10
  {
    (c as int) - ('0' as int)
  }

  predicate AllDigits(s: string) { forall i :: 0 <= i < |s| ==> IsDigit(s[i]) }

  /** Python's `str(n)` for a non-negative integer. */
  function NatToString(n: nat): (s: string)
    ensures |s| > 0 && AllDigits(s)
    ensures n < 10 <==> |s| == 1
    decreases n
  {
    if n < 10 then [DigitChar(n)] else NatToString(n / 10) + [DigitChar(n % 10)]
  }

  /** Python's `int(s)` for a string of decimal digits. */
  function ParseNat(s: string): nat
    requires AllDigits(s)
    decreases |s|
  {
    if s == [] then 0 else 10 * ParseNat(s[..|s| - 1]) + DigitValue(s[|s| - 1])
  }

  /** Parsing the decimal rendering gives the number back, so the rendering is injective. */
  lemma {:induction false} ParseNatToString(n: nat)
    ensures ParseNat(NatToString(n)) == n
    decreases n
  {
    var s := NatToString(n);
    if n >= 10 {
      ParseNatToString(n / 10);
      assert s[..|s| - 1] == NatToString(n / 10);
    }
  }

  lemma NatToStringInjective(m: nat, n: nat)
    ensures NatToString(m) == NatToString(n) ==> m == n
  {
    ParseNatToString(m);
    ParseNatToString(n);
  }

  /** Python's `%d` for any integer. */
  function IntToString(i: int): (s: string)
    ensures i >= 0 ==> s == NatToString(i)
  {
    if i < 0 then "-" + NatToString(-i) else NatToString(i)
  }

  /** Python's `%02d` for a number below 100. */
  function Pad2(n: nat): (s: string)
    requires n < 100
    ensures |s| == 2 && AllDigits(s) && ParseNat(s) == n
  {
    var s := [DigitChar(n / 10), DigitChar(n % 10)];
    assert s[..1] == [DigitChar(n / 10)];
    assert s[..1][..0] == [];
    assert ParseNat(s[..1]) == n / 10;
    assert DigitValue(s[1]) == n % 10;
    s
  }

  // ------------------------------------------------------------ whitespace

  /** The characters Python 2's argument-less `unicode.strip()` removes (the text of a
      parsed document is unicode): the ASCII controls tab to carriage return and the
      four separators U+001C-U+001F, the space, U+0085, and the characters the
      Unicode 5.2 database that Python 2.7 ships calls spaces or line and paragraph
      separators. */
  predicate IsWhitespace(c: char) {
    ('\U{09}' <= c <= '\U{0D}') || ('\U{1C}' <= c <= '\U{20}') ||
    c == '\U{85}' || c == '\U{A0}' || c == '\U{1680}' || c == '\U{180E}' ||
    ('\U{2000}' <= c <= '\U{200A}') || c == '\U{2028}' || c == '\U{2029}' ||
    c == '\U{202F}' || c == '\U{205F}' || c == '\U{3000}'
  }

  function StripLeft(s: string): (r: string)
    ensures |r| <= |s| && r == s[|s| - |r|..]
    ensures r == [] || !IsWhitespace(r[0])
    ensures forall i :: 0 <= i < |s| - |r| ==> IsWhitespace(s[i])
    decreases |s|
  {
    if s != [] && IsWhitespace(s[0]) then StripLeft(s[1..]) else s
  }

  function StripRight(s: string): (r: string)
    ensures |r| <= |s| && r == s[..|r|]
    ensures r == [] || !IsWhitespace(r[|r| - 1])
    ensures forall i :: |r| <= i < |s| ==> IsWhitespace(s[i])
    decreases |s|
  {
    if s != [] && IsWhitespace(s[|s| - 1]) then StripRight(s[..|s| - 1]) else s
  }

  /** Python's `s.strip()`: the longest infix with no whitespace at either end. */
  function Strip(s: string): (r: string)
    ensures |r| <= |s|
    ensures r == [] || (!IsWhitespace(r[0]) && !IsWhitespace(r[|r| - 1]))
    ensures r == [] <==> forall i :: 0 <= i < |s| ==> IsWhitespace(s[i])
    ensures exists i, j :: 0 <= i <= j <= |s| && r == s[i..j] &&
              (forall k :: 0 <= k < i ==> IsWhitespace(s[k])) &&
              (forall k :: j <= k < |s| ==> IsWhitespace(s[k]))
  {
    var left := StripLeft(s);
    var i := |s| - |left|;
    var r := StripRight(left);
    assert r == s[i..i + |r|];
    assert forall k :: i + |r| <= k < |s| ==> s[k] == left[k - i];
    r
  }

  // ------------------------------------------------------- shell words

  /** A shell word: non-empty and without a space. */
  predicate IsWord(w: string) { w != [] && ' ' !in w }

  /** Length of the leading run of non-space characters. */
  function WordLength(s: string): (n: nat)
    ensures n <= |s| && ' ' !in s[..n]
    ensures n < |s| ==> s[n] == ' '
    decreases |s|
  {
    if s == [] || s[0] == ' ' then 0 else 1 + WordLength(s[1..])
  }

  /** How the appliance's command shell splits an argument string: at runs of spaces,
      dropping empty words (Python's `str.split(' ')` without the empties). */
  function Words(s: string): seq<string>
    decreases |s|
  {
    if s == [] then []
    else if s[0] == ' ' then Words(s[1..])
    else
      var n := WordLength(s);
      [s[..n]] + Words(s[n..])
  }

  lemma {:induction false} WordLengthNoSpace(w: string)
    requires ' ' !in w
    ensures WordLength(w) == |w|
    decreases |w|
  {
    if w != [] {
      WordLengthNoSpace(w[1..]);
    }
  }

  /** The leading word is not lengthened by what follows a space. */
  lemma {:induction false} WordLengthAppend(x: string, y: string)
    requires WordLength(x) < |x| || y == [] || y[0] == ' '
    ensures WordLength(x + y) == WordLength(x)
    decreases |x|
  {
    if x != [] && x[0] != ' ' {
      assert (x + y)[1..] == x[1..] + y;
      WordLengthAppend(x[1..], y);
    }
  }

  /** Text that meets other text at a space splits into the words of each side. */
  lemma {:induction false} WordsAppend(x: string, y: string)
    requires x == [] || y == [] || x[|x| - 1] == ' ' || y[0] == ' '
    ensures Words(x + y) == Words(x) + Words(y)
    decreases |x|
  {
    if x == [] {
      assert x + y == y;
    } else if x[0] == ' ' {
      assert (x + y)[1..] == x[1..] + y;
      WordsAppend(x[1..], y);
    } else {
      var n := WordLength(x);
      WordLengthAppend(x, y);
      assert (x + y)[..n] == x[..n];
      assert (x + y)[n..] == x[n..] + y;
      WordsAppend(x[n..], y);
    }
  }

  lemma WordsJoin(x: string, y: string)
    ensures Words(x + " " + y) == Words(x) + Words(y)
  {
    WordsAppend(x, " ");
    WordsAppend(x + " ", y);
    assert Words(" ") == [];
  }

  /** Leading spaces are dropped. */
  lemma WordsSpace(rest: string)
    ensures Words(" " + rest) == Words(rest)
  {
    assert (" " + rest)[1..] == rest;
  }

  /** A single word is one token. */
  lemma WordsSingle(w: string)
    requires IsWord(w)
    ensures Words(w) == [w]
  {
    WordLengthNoSpace(w);
    assert w[..|w|] == w;
    assert w[|w|..] == [];
  }

  // Words separated by single spaces come back one by one.

  lemma Words2(a: string, b: string)
    requires IsWord(a) && IsWord(b)
    ensures Words(a + " " + b) == [a, b]
  {
    WordsJoin(a, b);
    WordsSingle(a);
    WordsSingle(b);
  }

  lemma Words3(a: string, b: string, c: string)
    requires IsWord(a) && IsWord(b) && IsWord(c)
    ensures Words(a + " " + b + " " + c) == [a, b, c]
  {
    WordsJoin(a + " " + b, c);
    Words2(a, b);
    WordsSingle(c);
  }

  lemma Words4(a: string, b: string, c: string, d: string)
    requires IsWord(a) && IsWord(b) && IsWord(c) && IsWord(d)
    ensures Words(a + " " + b + " " + c + " " + d) == [a, b, c, d]
  {
    WordsJoin(a + " " + b + " " + c, d);
    Words3(a, b, c);
    WordsSingle(d);
  }

  lemma Words5(a: string, b: string, c: string, d: string, e: string)
    requires IsWord(a) && IsWord(b) && IsWord(c) && IsWord(d) && IsWord(e)
    ensures Words(a + " " + b + " " + c + " " + d + " " + e) == [a, b, c, d, e]
  {
    WordsJoin(a + " " + b + " " + c + " " + d, e);
    Words4(a, b, c, d);
    WordsSingle(e);
  }

  lemma Words6(a: string, b: string, c: string, d: string, e: string, f: string)
    requires IsWord(a) && IsWord(b) && IsWord(c) && IsWord(d) && IsWord(e) && IsWord(f)
    ensures Words(a + " " + b + " " + c + " " + d + " " + e + " " + f) == [a, b, c, d, e, f]
  {
    WordsJoin(a + " " + b + " " + c + " " + d + " " + e, f);
    Words5(a, b, c, d, e);
    WordsSingle(f);
  }

  lemma Words7(a: string, b: string, c: string, d: string, e: string, f: string, g: string)
    requires IsWord(a) && IsWord(b) && IsWord(c) && IsWord(d) && IsWord(e) && IsWord(f) && IsWord(g)
    ensures Words(a + " " + b + " " + c + " " + d + " " + e + " " + f + " " + g) == [a, b, c, d, e, f, g]
  {
    WordsJoin(a + " " + b + " " + c + " " + d + " " + e + " " + f, g);
    Words6(a, b, c, d, e, f);
    WordsSingle(g);
  }

  /** Four words, a doubled space, two more words: six tokens. */
  lemma Words4Gap2(a: string, b: string, c: string, d: string, e: string, f: string)
    requires IsWord(a) && IsWord(b) && IsWord(c) && IsWord(d) && IsWord(e) && IsWord(f)
    ensures Words(a + " " + b + " " + c + " " + d + "  " + e + " " + f) == [a, b, c, d, e, f]
  {
    assert a + " " + b + " " + c + " " + d + "  " + e + " " + f == (a + " " + b + " " + c + " " + d) + "  " + (e + " " + f);
    WordsDoubleSpace(a + " " + b + " " + c + " " + d, e + " " + f);
    Words4(a, b, c, d);
    Words2(e, f);
  }

  /** Three words, a doubled space, one more word: four tokens. */
  lemma Words3Gap1(a: string, b: string, c: string, d: string)
    requires IsWord(a) && IsWord(b) && IsWord(c) && IsWord(d)
    ensures Words(a + " " + b + " " + c + "  " + d) == [a, b, c, d]
  {
    WordsDoubleSpace(a + " " + b + " " + c, d);
    Words3(a, b, c);
    WordsSingle(d);
  }

  /** A leading space, then two words. */
  lemma WordsLead2(a: string, b: string)
    requires IsWord(a) && IsWord(b)
    ensures Words(" " + a + " " + b) == [a, b]
  {
    assert " " + a + " " + b == " " + (a + " " + b);
    WordsSpace(a + " " + b);
    Words2(a, b);
  }

  /** A leading space, then three words. */
  lemma WordsLead3(a: string, b: string, c: string)
    requires IsWord(a) && IsWord(b) && IsWord(c)
    ensures Words(" " + a + " " + b + " " + c) == [a, b, c]
  {
    assert " " + a + " " + b + " " + c == " " + (a + " " + b + " " + c);
    WordsSpace(a + " " + b + " " + c);
    Words3(a, b, c);
  }

  /** A doubled space between two runs of words counts as one. */
  lemma WordsDoubleSpace(x: string, y: string)
    ensures Words(x + "  " + y) == Words(x) + Words(y)
  {
    assert x + "  " + y == x + " " + (" " + y);
    WordsJoin(x, " " + y);
    WordsSpace(y);
  }

  // ------------------------------------------------------- port lists

  /** The port list `register_export_initiator_port` builds: entries separated by ", ". */
  function JoinPorts(ports: seq<string>): string
    decreases |ports|
  {
    if |ports| == 0 then ""
    else if |ports| == 1 then ports[0]
    else ports[0] + ", " + JoinPorts(ports[1..])
  }

  /** Appending one port adds it after a separator. */
  lemma {:induction false} JoinPortsSnoc(ports: seq<string>, p: string)
    ensures JoinPorts(ports + [p]) == if |ports| == 0 then p else JoinPorts(ports) + ", " + p
    decreases |ports|
  {
    if |ports| == 1 {
      assert (ports + [p])[1..] == [p];
    } else if |ports| > 1 {
      assert (ports + [p])[1..] == ports[1..] + [p];
      JoinPortsSnoc(ports[1..], p);
    }
  }

  /** The first index + 1 ports join to what the first index join to, a separator
      when there were any, and the next port. */
  lemma JoinPortsPrefixStep(ports: seq<string>, index: nat)
    requires index < |ports|
    ensures JoinPorts(ports[..index + 1]) ==
      (if index == 0 then "" else JoinPorts(ports[..index]) + ", ") + ports[index]
  {
    assert ports[..index + 1] == ports[..index] + [ports[index]];
    JoinPortsSnoc(ports[..index], ports[index]);
  }

  /** Python's `s.split(", ")`, cutting at every ", ". */
  function SplitPorts(s: string): (r: seq<string>)
    ensures |r| > 0
    decreases |s|
  {
    if s == [] then [""]
    else if |s| >= 2 && s[0] == ',' && s[1] == ' ' then [""] + SplitPorts(s[2..])
    else
      var t := SplitPorts(s[1..]);
      [[s[0]] + t[0]] + t[1..]
  }

  lemma {:induction false} SplitPortsNoComma(p: string)
    requires ',' !in p
    ensures SplitPorts(p) == [p]
    decreases |p|
  {
    if p != [] {
      SplitPortsNoComma(p[1..]);
      assert [p[0]] + p[1..] == p;
    }
  }

  lemma {:induction false} SplitPortsCons(p: string, rest: string)
    requires ',' !in p
    ensures SplitPorts(p + ", " + rest) == [p] + SplitPorts(rest)
    decreases |p|
  {
    var s := p + ", " + rest;
    if p == [] {
      assert s == ", " + rest;
      assert s[2..] == rest;
    } else {
      assert s[1..] == p[1..] + ", " + rest;
      SplitPortsCons(p[1..], rest);
      assert [p[0]] + p[1..] == p;
    }
  }

  /** The join is undone by splitting, so the appliance recovers every port, in order,
      as long as no port name carries a comma. */
  lemma {:induction false} SplitJoinPorts(ports: seq<string>)
    requires |ports| > 0
    requires forall i :: 0 <= i < |ports| ==> ',' !in ports[i]
    ensures SplitPorts(JoinPorts(ports)) == ports
    decreases |ports|
  {
    if |ports| == 1 {
      SplitPortsNoComma(ports[0]);
    } else {
      SplitJoinPorts(ports[1..]);
      SplitPortsCons(ports[0], JoinPorts(ports[1..]));
      assert [ports[0]] + ports[1..] == ports;
    }
  }
}
