/**
 * The field-path syntax of a record: "" is the root, "/NAME" selects a map
 * entry, "[INDEX]" a list position, and segments compose left to right.
 * Inside NAME the three meta-characters '/', '[' and ']' are written doubled.
 *
 * A path is modelled as a sequence of segments; Render writes it out and
 * Parse reads it back, unescaping map keys as it goes.
 */
module FieldPaths {
  import opened Wrappers

  /** One step of a field-path: a map entry by key or a list position. */
  datatype Segment = Key(name: string) | Index(index: nat)

  /** The characters that must be doubled inside a map key. */
  predicate IsMeta(c: char) {
    c == '/' || c == '[' || c == ']'
  }

  // ---------------------------------------------------------------------------
  // Escaping of map keys
  // ---------------------------------------------------------------------------

  /** A map key as it is written in a path: every meta-character doubled. */
  function Escape(name: string): (r: string)
    ensures |r| >= |name|
    ensures name != [] ==> r != [] && r[0] == name[0]
  {
    if name == [] then []
    else (if IsMeta(name[0]) then [name[0], name[0]] else [name[0]]) + Escape(name[1..])
  }

  /**
   * Reads an escaped map key from the front of `s`, up to the first '/' or
   * '[' that is not doubled (or the end of `s`). Returns the unescaped key
   * and the text that follows it; a ']' that is not doubled is malformed.
   */
  function ReadName(s: string): (r: Option<(string, string)>)
    ensures r.Some? ==> |r.value.1| <= |s|
    decreases |s|
  {
    if s == [] then Some(([], []))
    else if IsMeta(s[0]) && |s| >= 2 && s[1] == s[0] then
      match ReadName(s[2..])
      case None => None
      case Some((n, rest)) => Some(([s[0]] + n, rest))
    else if s[0] == ']' then None
    else if s[0] == '/' || s[0] == '[' then Some(([], s))
    else
      match ReadName(s[1..])
      case None => None
      case Some((n, rest)) => Some(([s[0]] + n, rest))
  }

  /** Unescapes a whole string that should hold exactly one escaped key. */
  function Unescape(s: string): Option<string>
  {
    match ReadName(s)
    case None => None
    case Some((n, rest)) => if rest == [] then Some(n) else None
  }

  /** Text that ends a map key: nothing, or a single (undoubled) '/' or '['. */
  predicate EndsName(t: string) {
    t == [] || ((t[0] == '/' || t[0] == '[') && (|t| == 1 || t[1] != t[0]))
  }

  /** One step of ReadName over a doubled meta-character. */
  lemma ReadNameDoubled(c: char, r: string)
    requires IsMeta(c)
    ensures ReadName(r).None? ==> ReadName([c, c] + r).None?
    ensures ReadName(r).Some? ==>
      ReadName([c, c] + r) == Some(([c] + ReadName(r).value.0, ReadName(r).value.1))
  {
    assert ([c, c] + r)[2..] == r;
  }

  /** One step of ReadName over an ordinary character. */
  lemma ReadNamePlain(c: char, r: string)
    requires !IsMeta(c)
    ensures ReadName(r).None? ==> ReadName([c] + r).None?
    ensures ReadName(r).Some? ==>
      ReadName([c] + r) == Some(([c] + ReadName(r).value.0, ReadName(r).value.1))
  {
    assert ([c] + r)[1..] == r;
  }

  lemma {:induction false} ReadNameEscape(n: string, t: string)
    requires EndsName(t)
    ensures ReadName(Escape(n) + t) == Some((n, t))
    decreases |n|
  {
    if n == [] {
      assert Escape(n) + t == t;
    } else {
      var c := n[0];
      ReadNameEscape(n[1..], t);
      assert [c] + n[1..] == n;
      if IsMeta(c) {
        assert Escape(n) + t == [c, c] + (Escape(n[1..]) + t);
        ReadNameDoubled(c, Escape(n[1..]) + t);
      } else {
        assert Escape(n) + t == [c] + (Escape(n[1..]) + t);
        ReadNamePlain(c, Escape(n[1..]) + t);
      }
    }
  }

  lemma {:induction false} ReadNameSplits(s: string, n: string, rest: string)
    requires ReadName(s) == Some((n, rest))
    ensures s == Escape(n) + rest && EndsName(rest)
    decreases |s|
  {
    if s == [] {
    } else if IsMeta(s[0]) && |s| >= 2 && s[1] == s[0] {
      var c := s[0];
      assert s == [c, c] + s[2..];
      ReadNameDoubled(c, s[2..]);
      var n', rest' := ReadName(s[2..]).value.0, ReadName(s[2..]).value.1;
      assert n == [c] + n' && rest == rest';
      ReadNameSplits(s[2..], n', rest');
      assert n[1..] == n';
      assert Escape(n) == [c, c] + Escape(n');
    } else if !IsMeta(s[0]) {
      var c := s[0];
      assert s == [c] + s[1..];
      ReadNamePlain(c, s[1..]);
      var n', rest' := ReadName(s[1..]).value.0, ReadName(s[1..]).value.1;
      assert n == [c] + n' && rest == rest';
      ReadNameSplits(s[1..], n', rest');
      assert n[1..] == n';
      assert Escape(n) == [c] + Escape(n');
    }
  }

  /** Unescaping the escaped form of any key gives the key back. */
  lemma EscapeRoundTrip(n: string)
    ensures Unescape(Escape(n)) == Some(n)
  {
    ReadNameEscape(n, []);
    assert Escape(n) + [] == Escape(n);
  }

  /** Whatever unescapes to a key is exactly that key's escaped form. */
  lemma UnescapeInverse(s: string)
    requires Unescape(s).Some?
    ensures Escape(Unescape(s).value) == s
  {
    var n := Unescape(s).value;
    ReadNameSplits(s, n, []);
  }

  // ---------------------------------------------------------------------------
  // List indexes: decimal digits
  // ---------------------------------------------------------------------------

  predicate IsDigit(c: char) {
    '0' <= c <= '9'
  }

  predicate AllDigits(s: string) {
    forall i | 0 <= i < |s| :: IsDigit(s[i])
  }

  function DigitChar(d: nat): (c: char)
    requires d < 10
    ensures IsDigit(c)
  {
    ('0' as int + d) as char
  }

  function DigitValue(c: char): (d: nat)
    requires IsDigit(c)
    ensures d < 10 && DigitChar(d) == c
  {
    c as int - '0' as int
  }

  /** The decimal representation of `n`, without leading zeros. */
  function Digits(n: nat): (r: string)
    ensures r != [] && AllDigits(r)
    decreases n
  {
    if n < 10 then [DigitChar(n)] else Digits(n / 10) + [DigitChar(n % 10)]
  }

  /** The number a non-empty run of digits denotes (leading zeros allowed). */
  function DigitsValue(ds: string): nat
    requires AllDigits(ds)
    decreases |ds|
  {
    if ds == [] then 0
    else DigitsValue(ds[..|ds| - 1]) * 10 + DigitValue(ds[|ds| - 1])
  }

  /** The length of the longest run of digits at the front of `s`. */
  function DigitRun(s: string): (k: nat)
    ensures k <= |s| && AllDigits(s[..k])
    ensures k < |s| ==> !IsDigit(s[k])
    decreases |s|
  {
    if s != [] && IsDigit(s[0]) then 1 + DigitRun(s[1..]) else 0
  }

  /** Reads "DIGITS]" from the front of `s` (the text after a '['). */
  function ReadIndex(s: string): (r: Option<(nat, string)>)
    ensures r.Some? ==> |r.value.1| < |s|
  {
    var k := DigitRun(s);
    if k == 0 || k == |s| || s[k] != ']' then None
    else Some((DigitsValue(s[..k]), s[k + 1..]))
  }

  lemma {:induction false} DigitsRoundTrip(n: nat)
    ensures DigitsValue(Digits(n)) == n
    decreases n
  {
    if n >= 10 {
      DigitsRoundTrip(n / 10);
      var ds := Digits(n);
      assert ds[..|ds| - 1] == Digits(n / 10);
    }
  }

  lemma {:induction false} DigitRunAppend(ds: string, t: string)
    requires AllDigits(ds)
    ensures DigitRun(ds + t) == |ds| + DigitRun(t)
    decreases |ds|
  {
    if ds == [] {
      assert ds + t == t;
    } else {
      assert (ds + t)[0] == ds[0];
      assert IsDigit(ds[0]);
      assert (ds + t)[1..] == ds[1..] + t;
      assert AllDigits(ds[1..]) by {
        forall i | 0 <= i < |ds[1..]| ensures IsDigit(ds[1..][i]) {
          assert ds[1..][i] == ds[i + 1];
        }
      }
      DigitRunAppend(ds[1..], t);
    }
  }

  /** "[i]" is read back as the index i, leaving the rest of the text. */
  lemma ReadIndexDigits(i: nat, t: string)
    ensures ReadIndex(Digits(i) + "]" + t) == Some((i, t))
  {
    var ds := Digits(i);
    var s := ds + "]" + t;
    assert s == ds + ("]" + t);
    DigitRunAppend(ds, "]" + t);
    assert DigitRun(s) == |ds|;
    assert s[..|ds|] == ds;
    assert s[|ds| + 1..] == t;
    DigitsRoundTrip(i);
  }

  // ---------------------------------------------------------------------------
  // Whole paths
  // ---------------------------------------------------------------------------

  /** Tokenizes a field-path into segments; None when the text is malformed. */
  function Parse(s: string): (r: Option<seq<Segment>>)
    ensures r == Some([]) <==> s == []
    decreases |s|
  {
    if s == [] then Some([])
    else if s[0] == '/' then
      match ReadName(s[1..])
      case None => None
      case Some((name, rest)) =>
        match Parse(rest)
        case None => None
        case Some(p) => Some([Key(name)] + p)
    else if s[0] == '[' then
      match ReadIndex(s[1..])
      case None => None
      case Some((i, rest)) =>
        match Parse(rest)
        case None => None
        case Some(p) => Some([Index(i)] + p)
    else None
  }

  function RenderSegment(seg: Segment): string
  {
    match seg
    case Key(n) => "/" + Escape(n)
    case Index(i) => "[" + Digits(i) + "]"
  }

  /** Writes a path out in field-path syntax, escaping every map key. */
  function Render(p: seq<Segment>): (s: string)
    ensures s == [] <==> p == []
    decreases |p|
  {
    if p == [] then [] else RenderSegment(p[0]) + Render(p[1..])
  }

  /** A key that can follow another key without merging into it. */
  predicate FreeStanding(name: string) {
    name != [] && name[0] != '/'
  }

  /**
   * Doubling alone cannot separate a key from a following key that is empty
   * or starts with '/': both [Key("a"), Key("/b")] and [Key("a/"), Key("b")]
   * are written "/a///b" (see AmbiguousEscaping). A path is separable when
   * every key that directly follows another key is free-standing.
   */
  predicate Separable(p: seq<Segment>)
    decreases |p|
  {
    |p| < 2 || ((p[0].Key? && p[1].Key? ==> FreeStanding(p[1].name)) && Separable(p[1..]))
  }

  lemma {:induction false} RenderAppend(p: seq<Segment>, q: seq<Segment>)
    ensures Render(p + q) == Render(p) + Render(q)
    decreases |p|
  {
    if p != [] {
      assert (p + q)[1..] == p[1..] + q;
      RenderAppend(p[1..], q);
    } else {
      assert p + q == q;
    }
  }

  lemma {:induction false} SeparableSplit(p: seq<Segment>, q: seq<Segment>)
    requires Separable(p + q)
    ensures Separable(p) && Separable(q)
    decreases |p|
  {
    if p == [] {
      assert p + q == q;
    } else {
      assert (p + q)[1..] == p[1..] + q;
      SeparableSplit(p[1..], q);
    }
  }

  /** What follows a rendered key in a separable path ends that key. */
  lemma RenderEndsName(p: seq<Segment>)
    requires p == [] || p[0].Index? || FreeStanding(p[0].name)
    ensures EndsName(Render(p))
  {
    if p != [] {
      var s := Render(p);
      match p[0]
      case Index(i) =>
        assert s == "[" + Digits(i) + "]" + Render(p[1..]);
        assert s[1] == Digits(i)[0];
      case Key(n) =>
        assert s == "/" + Escape(n) + Render(p[1..]);
        assert s[1] == Escape(n)[0];
    }
  }

  lemma ParseSlash(r: string, n: string, rest: string, p: seq<Segment>)
    requires ReadName(r) == Some((n, rest)) && Parse(rest) == Some(p)
    ensures Parse("/" + r) == Some([Key(n)] + p)
  {
    assert ("/" + r)[1..] == r;
  }

  lemma ParseBracket(r: string, i: nat, rest: string, p: seq<Segment>)
    requires ReadIndex(r) == Some((i, rest)) && Parse(rest) == Some(p)
    ensures Parse("[" + r) == Some([Index(i)] + p)
  {
    assert ("[" + r)[1..] == r;
  }

  lemma ParseRenderKey(n: string, q: seq<Segment>)
    requires q == [] || q[0].Index? || FreeStanding(q[0].name)
    requires Parse(Render(q)) == Some(q)
    ensures Parse(Render([Key(n)] + q)) == Some([Key(n)] + q)
  {
    var tail := Render(q);
    assert ([Key(n)] + q)[1..] == q;
    assert Render([Key(n)] + q) == "/" + (Escape(n) + tail);
    RenderEndsName(q);
    ReadNameEscape(n, tail);
    ParseSlash(Escape(n) + tail, n, tail, q);
  }

  lemma ParseRenderIndex(i: nat, q: seq<Segment>)
    requires Parse(Render(q)) == Some(q)
    ensures Parse(Render([Index(i)] + q)) == Some([Index(i)] + q)
  {
    var tail := Render(q);
    assert ([Index(i)] + q)[1..] == q;
    assert Render([Index(i)] + q) == "[" + (Digits(i) + "]" + tail);
    ReadIndexDigits(i, tail);
    ParseBracket(Digits(i) + "]" + tail, i, tail, q);
  }

  /** A separable path is read back exactly as it was written. */
  lemma {:induction false} ParseRender(p: seq<Segment>)
    requires Separable(p)
    ensures Parse(Render(p)) == Some(p)
    decreases |p|
  {
    if p != [] {
      ParseRender(p[1..]);
      assert [p[0]] + p[1..] == p;
      if p[0].Key? {
        ParseRenderKey(p[0].name, p[1..]);
      } else {
        ParseRenderIndex(p[0].index, p[1..]);
      }
    }
  }

  /** Texts Parse refuses: a negative, non-numeric, empty or unclosed index, a lone ']' in a key, and a step that is neither '/' nor '['. */
  lemma MalformedPaths()
    ensures Parse("[-1]").None? && Parse("[x]").None? && Parse("[]").None? && Parse("[1").None?
    ensures Parse("/a]").None? && Parse("a").None? && Parse("/a/b]").None?
  {
    assert "[-1]"[1..] == "-1]" && "[x]"[1..] == "x]" && "[]"[1..] == "]" && "[1"[1..] == "1";
    assert DigitRun("1") == 1;
    assert "/a]"[1..] == "a]" && "a]"[1..] == "]";
    assert ReadName("b]") == None by {
      assert "b]"[1..] == "]";
    }
    assert ReadName("a/b]") == Some(("a", "/b]")) by {
      assert "a/b]"[1..] == "/b]";
      assert ReadName("/b]") == Some(([], "/b]"));
      assert ['a'] + [] == "a";
    }
    assert "/a/b]"[1..] == "a/b]" && "/b]"[1..] == "b]";
  }

  /**
   * Every index that Parse reads from `s` is written without a leading zero.
   * The predicate follows Parse step by step, so digits inside escaped keys
   * are not looked at.
   */
  predicate UnpaddedIndexes(s: string)
    decreases |s|
  {
    if s == [] then true
    else if s[0] == '/' then
      match ReadName(s[1..])
      case None => true
      case Some((_, rest)) => UnpaddedIndexes(rest)
    else if s[0] == '[' then
      (DigitRun(s[1..]) < 2 || s[1] != '0') &&
      (match ReadIndex(s[1..])
       case None => true
       case Some((_, rest)) => UnpaddedIndexes(rest))
    else true
  }

  /** The decimal writing of a number has no leading zero. */
  lemma {:induction false} DigitsNoLeadingZero(n: nat)
    ensures |Digits(n)| >= 2 ==> Digits(n)[0] != '0'
    decreases n
  {
    if n >= 10 {
      DigitsNoLeadingZero(n / 10);
      assert Digits(n)[0] == Digits(n / 10)[0];
      if n / 10 < 10 {
        assert Digits(n / 10) == [DigitChar(n / 10)];
      }
    }
  }

  lemma AllDigitsPrefix(ds: string, k: nat)
    requires AllDigits(ds) && k <= |ds|
    ensures AllDigits(ds[..k])
  {
    forall i | 0 <= i < k ensures IsDigit(ds[..k][i]) {
      assert ds[..k][i] == ds[i];
    }
  }

  /** A run of digits that starts with a non-zero digit denotes at least 1. */
  lemma {:induction false} LeadingDigitPositive(ds: string)
    requires ds != [] && AllDigits(ds) && ds[0] != '0'
    ensures DigitsValue(ds) >= 1
    decreases |ds|
  {
    var init := ds[..|ds| - 1];
    if |ds| > 1 {
      AllDigitsPrefix(ds, |ds| - 1);
      assert init[0] == ds[0];
      LeadingDigitPositive(init);
    } else {
      assert init == [];
      assert DigitChar(DigitValue(ds[0])) == ds[0];
    }
  }

  /** A digit run without a leading zero is the decimal writing of the number it denotes. */
  lemma {:induction false} CanonicalDigits(ds: string)
    requires ds != [] && AllDigits(ds) && (|ds| == 1 || ds[0] != '0')
    ensures Digits(DigitsValue(ds)) == ds
    decreases |ds|
  {
    var init := ds[..|ds| - 1];
    var d := DigitValue(ds[|ds| - 1]);
    if |ds| == 1 {
      assert init == [];
      assert DigitsValue(ds) == d;
      assert ds == [DigitChar(d)];
    } else {
      AllDigitsPrefix(ds, |ds| - 1);
      assert init[0] == ds[0];
      CanonicalDigits(init);
      LeadingDigitPositive(init);
      var v := DigitsValue(ds);
      assert v == DigitsValue(init) * 10 + d;
      assert v / 10 == DigitsValue(init) && v % 10 == d;
      assert ds == init + [ds[|ds| - 1]];
    }
  }

  /** A text that Parse accepts and that starts with '/': its key, and the text after it. */
  lemma KeyStep(s: string) returns (name: string, rest: string)
    requires s != [] && s[0] == '/' && Parse(s).Some?
    ensures s == RenderSegment(Key(name)) + rest
    ensures Parse(rest).Some? && Parse(s).value == [Key(name)] + Parse(rest).value
    ensures UnpaddedIndexes(s) <==> UnpaddedIndexes(rest)
  {
    name, rest := ReadName(s[1..]).value.0, ReadName(s[1..]).value.1;
    ReadNameSplits(s[1..], name, rest);
    assert s == "/" + Escape(name) + rest;
  }

  /** A text that Parse accepts, starts with '[' and writes its index unpadded: the index, and the text after it. */
  lemma IndexStep(s: string) returns (i: nat, rest: string)
    requires s != [] && s[0] == '[' && Parse(s).Some? && UnpaddedIndexes(s)
    ensures s == RenderSegment(Index(i)) + rest && UnpaddedIndexes(rest)
    ensures Parse(rest).Some? && Parse(s).value == [Index(i)] + Parse(rest).value
  {
    var t := s[1..];
    var k := DigitRun(t);
    i, rest := ReadIndex(t).value.0, ReadIndex(t).value.1;
    var ds := t[..k];
    assert i == DigitsValue(ds) && rest == t[k + 1..] && t[k] == ']';
    assert |ds| == 1 || ds[0] != '0';
    CanonicalDigits(ds);
    assert s == "[" + Digits(i) + "]" + rest;
  }

  /** The first segment of a text that Parse accepts and that writes no padded index, and the text after it. */
  lemma ParseStep(s: string) returns (seg: Segment, rest: string)
    requires s != [] && Parse(s).Some? && UnpaddedIndexes(s)
    ensures s == RenderSegment(seg) + rest && UnpaddedIndexes(rest)
    ensures Parse(rest).Some? && Parse(s).value == [seg] + Parse(rest).value
  {
    if s[0] == '/' {
      var name;
      name, rest := KeyStep(s);
      seg := Key(name);
    } else {
      var i;
      i, rest := IndexStep(s);
      seg := Index(i);
    }
  }

  /** A text that Parse accepts and that writes no padded index is the rendering of the path read from it. */
  lemma {:induction false} RenderParseUnpadded(s: string)
    requires Parse(s).Some? && UnpaddedIndexes(s)
    ensures Render(Parse(s).value) == s
    decreases |s|
  {
    if s != [] {
      var seg, rest := ParseStep(s);
      RenderParseUnpadded(rest);
      var p := Parse(s).value;
      assert p[0] == seg && p[1..] == Parse(rest).value;
    }
  }

  /** A rendered index step is read back as that index, and it is unpadded. */
  lemma UnpaddedIndexStep(j: nat, r: string)
    ensures var s := "[" + Digits(j) + "]" + r;
      && s[1..] == Digits(j) + "]" + r
      && ReadIndex(s[1..]) == Some((j, r))
      && (UnpaddedIndexes(s) <==> UnpaddedIndexes(r))
  {
    var s := "[" + Digits(j) + "]" + r;
    var t := Digits(j) + "]" + r;
    assert s[1..] == t;
    ReadIndexDigits(j, r);
    assert t == Digits(j) + ("]" + r);
    DigitRunAppend(Digits(j), "]" + r);
    assert DigitRun("]" + r) == 0;
    DigitsNoLeadingZero(j);
    assert t[0] == Digits(j)[0];
  }

  /** A text that is the rendering of the path Parse reads from it writes no padded index. */
  lemma {:induction false} UnpaddedOfRender(s: string)
    requires Parse(s).Some?
    ensures Render(Parse(s).value) == s ==> UnpaddedIndexes(s)
    decreases |s|
  {
    if s != [] && Render(Parse(s).value) == s {
      var p := Parse(s).value;
      if s[0] == '/' {
        var name, rest := KeyStep(s);
        var a := RenderSegment(Key(name));
        assert p[0] == Key(name) && p[1..] == Parse(rest).value;
        assert a + Render(Parse(rest).value) == a + rest;
        assert Render(Parse(rest).value) == (a + rest)[|a|..];
        UnpaddedOfRender(rest);
      } else {
        var j, r := p[0].index, Render(p[1..]);
        assert s == "[" + Digits(j) + "]" + r;
        UnpaddedIndexStep(j, r);
        assert Parse(r) == Some(p[1..]);
        UnpaddedOfRender(r);
      }
    }
  }

  /**
   * The converse of ParseRender: a text that Parse accepts is exactly the
   * rendering of the path read from it if and only if it writes no index with
   * a leading zero.
   */
  lemma RenderParse(s: string)
    requires Parse(s).Some?
    ensures Render(Parse(s).value) == s <==> UnpaddedIndexes(s)
  {
    UnpaddedOfRender(s);
    if UnpaddedIndexes(s) {
      RenderParseUnpadded(s);
    }
  }

  /** Rendering a separable path writes every index without a leading zero. */
  lemma RenderUnpadded(p: seq<Segment>)
    requires Separable(p)
    ensures UnpaddedIndexes(Render(p))
  {
    ParseRender(p);
    UnpaddedOfRender(Render(p));
  }

  /** The key "a[01" holds no index: its canonical text counts as unpadded and renders back. */
  lemma KeyDigitsNotAnIndex()
    ensures Parse("/a[[01") == Some([Key("a[01")]) && UnpaddedIndexes("/a[[01")
  {
    assert Render([Key("a[01")]) == "/a[[01" by {
      assert Escape("a[01") == "a[[01";
    }
    ParseRender([Key("a[01")]);
    RenderParse("/a[[01");
  }

  lemma {:induction false} EscapeAppend(a: string, b: string)
    ensures Escape(a + b) == Escape(a) + Escape(b)
    decreases |a|
  {
    if a == [] {
      assert a + b == b;
    } else {
      assert (a + b)[0] == a[0];
      assert (a + b)[1..] == a[1..] + b;
      EscapeAppend(a[1..], b);
    }
  }

  /** The key "foo/bar" is addressed as "/foo//bar", and read back as that key. */
  lemma EscapeExample()
    ensures Render([Key("foo/bar")]) == "/foo//bar"
    ensures Parse("/foo//bar") == Some([Key("foo/bar")])
  {
    assert "foo/bar" == "foo" + ("/" + "bar");
    EscapeAppend("foo", "/" + "bar");
    EscapeAppend("/", "bar");
    assert Escape("/") == "//";
    assert Escape("foo") == "foo";
    assert Escape("bar") == "bar";
    ParseRender([Key("foo/bar")]);
  }

  /** Two different paths that the doubling rule writes identically. */
  lemma AmbiguousEscaping()
    ensures Render([Key("a"), Key("/b")]) == "/a///b"
    ensures Render([Key("a/"), Key("b")]) == "/a///b"
    ensures Parse("/a///b") == Some([Key("a/"), Key("b")])
  {
    assert Escape("/b") == "//b";
    assert Escape("a/") == "a//";
    ParseRender([Key("a/"), Key("b")]);
  }
}
