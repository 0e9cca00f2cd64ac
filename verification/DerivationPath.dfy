/** BIP-32 derivation paths: the parser and the printer against each other, and the path iterators. */
module DerivationPath {
  import opened Basics

  const TWO32: int := 0x1_0000_0000
  const HARDENED: nat := 0x8000_0000

  /** m/44'/60'/0'/0 */
  const DEFAULT_ROOT: seq<nat> := [HARDENED + 44, HARDENED + 60, HARDENED, 0]

  predicate IsPath(path: seq<nat>) { forall i :: 0 <= i < |path| ==> path[i] < TWO32 }

  // ----- text -----

  /** strings.Split by '/'. */
  function Split(s: string): (parts: seq<string>)
    ensures parts != []
  {
    if s == "" then [""]
    else
      var rest := Split(s[1..]);
      if s[0] == '/' then [""] + rest else [[s[0]] + rest[0]] + rest[1..]
  }

  function Digit(d: nat): char
    requires d < 10
  {
    "0123456789"[d]
  }

  /** %d of a number that is not negative. */
  function Decimal(n: nat): string {
    if n < 10 then [Digit(n)] else Decimal(n / 10) + [Digit(n % 10)]
  }

  /** What the proofs need of big.Int.SetString with base 0: it reads canonical decimals. The other literals that it
      accepts (signs, prefixes, underscores) may mean anything. */
  ghost predicate ReadsDecimals(number: string -> Option<int>) {
    forall n: nat :: number(Decimal(n)) == Some(n)
  }

  function DigitValue(c: char): nat {
    if '0' <= c <= '9' then (c as int) - ('0' as int) else 0
  }

  function Value(s: string): nat {
    if s == "" then 0 else Value(s[..|s| - 1]) * 10 + DigitValue(s[|s| - 1])
  }

  lemma {:induction false} DecimalHasValue(n: nat)
    ensures Value(Decimal(n)) == n
    decreases n
  {
    if n >= 10 {
      DecimalHasValue(n / 10);
      assert Decimal(n)[..|Decimal(n)| - 1] == Decimal(n / 10);
    }
  }

  /** There is such a reader. */
  lemma ValueReadsDecimals()
    ensures ReadsDecimals(s => Some(Value(s)))
  {
    forall n: nat ensures Value(Decimal(n)) == n { DecimalHasValue(n); }
  }

  // ----- the parser -----

  predicate EndsWithQuote(c: string) { c != "" && c[|c| - 1] == '\'' }

  function ParseComponent(number: string -> Option<int>, raw: string): Option<nat> {
    var component := TrimSpace(raw);
    var base := if EndsWithQuote(component) then HARDENED else 0;
    var literal := if EndsWithQuote(component) then TrimSpace(component[..|component| - 1]) else component;
    match number(literal)
    case None => None
    case Some(value) => if value < 0 || value > TWO32 - 1 - base then None else Some(base + value)
  }

  function ParseComponents(number: string -> Option<int>, components: seq<string>): Option<seq<nat>> {
    if components == [] then Some([])
    else
      var init := ParseComponents(number, components[..|components| - 1]);
      var last := ParseComponent(number, components[|components| - 1]);
      if init.Some? && last.Some? then Some(init.value + [last.value]) else None
  }

  predicate Ambiguous(path: string) { TrimSpace(Split(path)[0]) == "" }
  predicate Absolute(path: string) { TrimSpace(Split(path)[0]) == "m" }

  function Parse(number: string -> Option<int>, path: string): Option<seq<nat>> {
    var parts := Split(path);
    if Ambiguous(path) then None
    else
      var components := if Absolute(path) then parts[1..] else parts;
      if components == [] then None
      else match ParseComponents(number, components)
        case None => None
        case Some(tail) => Some(if Absolute(path) then tail else DEFAULT_ROOT + tail)
  }

  /** ParseDerivationPath: the path that the text means, or none. */
  method ParseDerivationPath(number: string -> Option<int>, path: string) returns (r: Option<seq<nat>>)
    ensures r == Parse(number, path)
    ensures forall p :: r == Some(p) <==> MeansPath(number, path, p)
  {
    r := ReadPath(number, path);
    hide *;
    forall p ensures Parse(number, path) == Some(p) <==> MeansPath(number, path, p) { ParsesIff(number, path, p); }
  }

  method ReadPath(number: string -> Option<int>, path: string) returns (r: Option<seq<nat>>)
    ensures r == Parse(number, path)
  {
    hide TrimSpace, Split, ParseComponents;
    var components := Split(path);
    var result: seq<nat> := [];
    if TrimSpace(components[0]) == "" {
      return None;
    } else if TrimSpace(components[0]) == "m" {
      components := components[1..];
    } else {
      result := result + DEFAULT_ROOT;
    }
    if components == [] { return None; }
    r := AppendComponents(number, components, result);
    assert forall tail: seq<nat> :: [] + tail == tail;
  }

  /** The loop of ParseDerivationPath. */
  method AppendComponents(number: string -> Option<int>, components: seq<string>, root: seq<nat>) returns (r: Option<seq<nat>>)
    ensures r == match ParseComponents(number, components)
                 case None => None
                 case Some(tail) => Some(root + tail)
  {
    hide ParseComponent;
    var result := root;
    for i := 0 to |components|
      invariant ParseComponents(number, components[..i]).Some?
      invariant result == root + ParseComponents(number, components[..i]).value
    {
      assert components[..i + 1][..i] == components[..i];
      BadComponent(number, components, i);
      var value := ReadComponent(number, components[i]);
      if value.None? { return None; }
      result := result + [value.value];
    }
    assert components[..|components|] == components;
    return Some(result);
  }

  /** The body of the loop. */
  method ReadComponent(number: string -> Option<int>, raw: string) returns (r: Option<nat>)
    ensures r == ParseComponent(number, raw)
  {
    hide TrimSpace;
    var component, value := TrimSpace(raw), 0;
    if component != "" && component[|component| - 1] == '\'' {
      value := HARDENED;
      component := TrimSpace(component[..|component| - 1]);
    }
    var bigval := number(component);
    if bigval.None? { return None; }
    var max := TWO32 - 1 - value;
    if bigval.value < 0 || bigval.value > max { return None; }
    return Some(value + bigval.value);
  }

  /** One bad component refuses the path. */
  lemma {:induction false} BadComponent(number: string -> Option<int>, components: seq<string>, i: nat)
    requires i < |components|
    ensures ParseComponent(number, components[i]).None? ==> ParseComponents(number, components).None?
    decreases |components|
  {
    if i < |components| - 1 { BadComponent(number, components[..|components| - 1], i); }
  }

  // ----- the printer -----

  function Component(c: nat): string {
    if c >= HARDENED then Decimal(c - HARDENED) + "'" else Decimal(c)
  }

  function Print(path: seq<nat>): string {
    if path == [] then "m" else Print(path[..|path| - 1]) + "/" + Component(path[|path| - 1])
  }

  /** DerivationPath.String. */
  method String(path: seq<nat>) returns (result: string)
    ensures result == Print(path)
  {
    result := "m";
    for i := 0 to |path|
      invariant result == Print(path[..i])
    {
      assert path[..i + 1][..i] == path[..i];
      var component, hardened := path[i], false;
      if component >= HARDENED {
        component := component - HARDENED;
        hardened := true;
      }
      ghost var before := result;
      result := result + "/" + Decimal(component);
      if hardened {
        result := result + "'";
        assert result == before + "/" + (Decimal(component) + "'");
      }
    }
    assert path[..|path|] == path;
  }

  // ----- one against the other -----

  lemma {:induction false} SplitAtLastSlash(a: string, b: string)
    requires '/' !in b
    ensures Split(a + "/" + b) == Split(a) + [b]
  {
    if a == "" {
      assert ("" + "/" + b)[1..] == b;
      SplitWithoutSlash(b);
    } else {
      SplitAtLastSlash(a[1..], b);
      assert (a + "/" + b)[1..] == a[1..] + "/" + b;
    }
  }

  lemma {:induction false} SplitWithoutSlash(b: string)
    requires '/' !in b
    ensures Split(b) == [b]
  {
    if b != "" {
      SplitWithoutSlash(b[1..]);
      assert b == [b[0]] + b[1..];
    }
  }

  lemma {:induction false} DecimalIsDigits(n: nat)
    ensures Decimal(n) != "" && forall i :: 0 <= i < |Decimal(n)| ==> '0' <= Decimal(n)[i] <= '9'
  {
    if n >= 10 { DecimalIsDigits(n / 10); }
  }

  lemma ComponentShape(c: nat)
    ensures '/' !in Component(c) && Trimmed(Component(c)) && Component(c) != ""
    ensures EndsWithQuote(Component(c)) <==> c >= HARDENED
    ensures c >= HARDENED ==> Component(c)[..|Component(c)| - 1] == Decimal(c - HARDENED) && Trimmed(Decimal(c - HARDENED))
  {
    DecimalIsDigits(if c >= HARDENED then c - HARDENED else c);
  }

  lemma DecimalIsRead(number: string -> Option<int>, n: nat)
    requires ReadsDecimals(number)
    ensures number(Decimal(n)) == Some(n)
  {}

  lemma HardenedComponent(number: string -> Option<int>, raw: string, n: nat)
    requires TrimSpace(raw) == raw && EndsWithQuote(raw) && n < HARDENED
    requires raw[..|raw| - 1] == Decimal(n) && Trimmed(Decimal(n)) && number(Decimal(n)) == Some(n)
    ensures ParseComponent(number, raw) == Some(n + HARDENED)
  {
    hide TrimSpace, Trimmed, Decimal;
  }

  lemma PlainComponent(number: string -> Option<int>, n: nat)
    requires n < HARDENED && TrimSpace(Decimal(n)) == Decimal(n) && !EndsWithQuote(Decimal(n)) && number(Decimal(n)) == Some(n)
    ensures ParseComponent(number, Component(n)) == Some(n)
  {
    hide TrimSpace, Decimal, EndsWithQuote;
  }

  lemma ComponentParses(number: string -> Option<int>, c: nat)
    requires ReadsDecimals(number) && c < TWO32
    ensures ParseComponent(number, Component(c)) == Some(c)
  {
    hide TrimSpace, Decimal, EndsWithQuote, ReadsDecimals, ParseComponent;
    ComponentShape(c);
    if c >= HARDENED {
      DecimalIsRead(number, c - HARDENED);
      HardenedComponent(number, Component(c), c - HARDENED);
    } else {
      DecimalIsRead(number, c);
      PlainComponent(number, c);
    }
  }

  /** The components of a printed path. */
  function Components(path: seq<nat>): seq<string> {
    if path == [] then [] else Components(path[..|path| - 1]) + [Component(path[|path| - 1])]
  }

  lemma {:induction false} SplitPrinted(path: seq<nat>)
    ensures Split(Print(path)) == ["m"] + Components(path)
    decreases |path|
  {
    if path == [] {
      SplitWithoutSlash("m");
    } else {
      var init, last := path[..|path| - 1], path[|path| - 1];
      SplitPrinted(init);
      ComponentShape(last);
      SplitAtLastSlash(Print(init), Component(last));
    }
  }

  lemma {:induction false} ComponentsParse(number: string -> Option<int>, path: seq<nat>)
    requires ReadsDecimals(number) && IsPath(path)
    ensures ParseComponents(number, Components(path)) == Some(path)
    decreases |path|
  {
    hide ReadsDecimals, Decimal, TrimSpace, ParseComponent, Component;
    if path != [] {
      var init, last := path[..|path| - 1], path[|path| - 1];
      ComponentsParse(number, init);
      ComponentParses(number, last);
      assert Components(path)[..|Components(path)| - 1] == Components(init);
      assert path == init + [last];
    }
  }

  lemma {:induction false} ComponentsLength(path: seq<nat>)
    ensures |Components(path)| == |path|
    decreases |path|
  {
    if path != [] { ComponentsLength(path[..|path| - 1]); }
  }

  /** A printed path parses to itself exactly when it is not empty: "m" alone is refused. */
  lemma RoundTripIff(number: string -> Option<int>, path: seq<nat>)
    requires ReadsDecimals(number) && IsPath(path)
    ensures Parse(number, Print(path)) == (if path == [] then None else Some(path))
  {
    SplitPrinted(path);
    ComponentsParse(number, path);
    ComponentsLength(path);
    assert Split(Print(path))[0] == "m" && TrimSpace("m") == "m";
    assert Split(Print(path))[1..] == Components(path);
  }

  lemma {:induction false} ParsedComponentsArePath(number: string -> Option<int>, components: seq<string>)
    requires ParseComponents(number, components).Some?
    ensures IsPath(ParseComponents(number, components).value) && |ParseComponents(number, components).value| == |components|
    decreases |components|
  {
    if components != [] { ParsedComponentsArePath(number, components[..|components| - 1]); }
  }

  /** Whatever spelling was accepted, its printed form parses to the same path, and so is a canonical spelling of it. */
  lemma PrintedFormIsCanonical(number: string -> Option<int>, text: string)
    requires ReadsDecimals(number) && Parse(number, text).Some?
    ensures Parse(number, Print(Parse(number, text).value)) == Parse(number, text)
  {
    var parts := Split(text);
    ParsedComponentsArePath(number, if Absolute(text) then parts[1..] else parts);
    RoundTripIff(number, Parse(number, text).value);
  }

  /** Different paths print differently. */
  lemma PrintDistinguishes(number: string -> Option<int>, p: seq<nat>, q: seq<nat>)
    requires ReadsDecimals(number) && IsPath(p) && IsPath(q)
    ensures Print(p) == Print(q) <==> p == q
  {
    RoundTripIff(number, p);
    RoundTripIff(number, q);
  }

  /** Two accepted texts mean the same path exactly when their paths print alike. */
  lemma SpellingsAgreeIff(number: string -> Option<int>, s: string, t: string)
    requires ReadsDecimals(number) && Parse(number, s).Some? && Parse(number, t).Some?
    ensures Parse(number, s) == Parse(number, t) <==> Print(Parse(number, s).value) == Print(Parse(number, t).value)
  {
    PrintedFormIsCanonical(number, s);
    PrintedFormIsCanonical(number, t);
  }

  /** A relative path means the default root followed by what the same components mean under "m/". */
  lemma RelativeExtendsRoot(number: string -> Option<int>, text: string)
    requires !Ambiguous(text) && !Absolute(text)
    ensures Parse(number, text) ==
            match Parse(number, "m/" + text)
            case None => None
            case Some(path) => Some(DEFAULT_ROOT + path)
  {
    var whole := "m/" + text;
    assert whole[1..][0] == '/' && whole[1..][1..] == text;
    assert Split(whole[1..]) == [""] + Split(text);
    assert Split(whole) == [[whole[0]] + Split(whole[1..])[0]] + Split(whole[1..])[1..];
    assert [whole[0]] + "" == "m";
    assert Split(whole) == ["m"] + Split(text);
    assert TrimSpace("m") == "m";
    assert Split(whole)[1..] == Split(text);
  }

  // ----- which texts mean which paths -----

  function Joined(parts: seq<string>): string
    requires parts != []
  {
    if |parts| == 1 then parts[0] else parts[0] + "/" + Joined(parts[1..])
  }

  lemma JoinedOnto(first: string, rest: seq<string>)
    requires rest != []
    ensures Joined([first] + rest) == first + ("/" + Joined(rest))
  {
    assert ([first] + rest)[1..] == rest;
    Reassociated(first, "/", Joined(rest));
  }

  lemma Reassociated(a: string, b: string, c: string)
    ensures (a + b) + c == a + (b + c)
  {}

  lemma JoinedWithHead(c: char, rest: seq<string>)
    requires rest != []
    ensures Joined([[c] + rest[0]] + rest[1..]) == [c] + Joined(rest)
    ensures Joined([""] + rest) == "/" + Joined(rest)
  {
    var tail := rest[1..];
    JoinedOnto("", rest);
    if tail != [] {
      hide Joined;
      JoinedOnto([c] + rest[0], tail);
      JoinedOnto(rest[0], tail);
      Reassociated([c], rest[0], "/" + Joined(tail));
      assert rest == [rest[0]] + tail;
    } else {
      assert rest == [rest[0]];
    }
  }

  /** Split cuts at every slash and nowhere else. */
  lemma {:induction false} SplitIsCut(s: string)
    ensures Joined(Split(s)) == s && forall k :: 0 <= k < |Split(s)| ==> '/' !in Split(s)[k]
    decreases |s|
  {
    if s != "" {
      hide Joined;
      SplitIsCut(s[1..]);
      JoinedWithHead(s[0], Split(s[1..]));
      assert s == [s[0]] + s[1..];
    } else {
      assert Split(s) == [""];
    }
  }

  /** The component is a number below 2^32; or a number below 2^31 and a quote, and then stands for that number and 2^31. Space around
      the component, and in front of the quote, does not matter. */
  predicate Means(number: string -> Option<int>, raw: string, c: nat) {
    var text := TrimSpace(raw);
    if text != "" && text[|text| - 1] == '\'' then
      var literal := number(TrimSpace(text[..|text| - 1]));
      literal.Some? && 0 <= literal.value < 0x8000_0000 && c == literal.value + 0x8000_0000
    else
      var literal := number(text);
      literal.Some? && 0 <= literal.value < 0x1_0000_0000 && c == literal.value
  }

  lemma ComponentIff(number: string -> Option<int>, raw: string, c: nat)
    ensures ParseComponent(number, raw) == Some(c) <==> Means(number, raw, c)
  {
    hide TrimSpace;
  }

  predicate AllMean(number: string -> Option<int>, components: seq<string>, path: seq<nat>) {
    |components| == |path| && forall k :: 0 <= k < |path| ==> Means(number, components[k], path[k])
  }

  lemma {:induction false} ComponentsIff(number: string -> Option<int>, components: seq<string>, path: seq<nat>)
    ensures ParseComponents(number, components) == Some(path) <==> AllMean(number, components, path)
    decreases |components|
  {
    hide ParseComponent, Means;
    if components != [] {
      var init, last := components[..|components| - 1], components[|components| - 1];
      if path != [] {
        ComponentsIff(number, init, path[..|path| - 1]);
        ComponentIff(number, last, path[|path| - 1]);
        assert path == path[..|path| - 1] + [path[|path| - 1]];
      }
    }
  }

  /** Two kinds of text mean a path: "m" followed by one or more components, which mean the path; and one or more components not led by
      "m" or by nothing, which mean what follows m/44'/60'/0'/0 in the path. One component that means nothing spoils the text. */
  predicate MeansPath(number: string -> Option<int>, text: string, path: seq<nat>) {
    var parts := Split(text);
    var lead := TrimSpace(parts[0]);
    if lead == "m" then path != [] && AllMean(number, parts[1..], path)
    else lead != "" && |path| > 4 && path[..4] == [0x8000_0000 + 44, 0x8000_0000 + 60, 0x8000_0000, 0]
         && AllMean(number, parts, path[4..])
  }

  /** The parser accepts exactly the texts that mean a path. */
  lemma ParsesIff(number: string -> Option<int>, text: string, path: seq<nat>)
    ensures Parse(number, text) == Some(path) <==> MeansPath(number, text, path)
  {
    hide TrimSpace, Split, ParseComponents, Means;
    var parts := Split(text);
    if Absolute(text) {
      ComponentsIff(number, parts[1..], path);
    } else {
      if |path| >= 4 {
        ComponentsIff(number, parts, path[4..]);
        assert path == path[..4] + path[4..];
      }
      if ParseComponents(number, parts).Some? {
        var tail := ParseComponents(number, parts).value;
        ComponentsIff(number, parts, tail);
        assert (DEFAULT_ROOT + tail)[4..] == tail && (DEFAULT_ROOT + tail)[..4] == DEFAULT_ROOT;
      }
    }
  }

  lemma OneComponent(component: string)
    requires '/' !in component
    ensures Split("m/" + component) == ["m", component]
  {
    assert "m/" + component == "m" + "/" + component;
    SplitAtLastSlash("m", component);
    SplitWithoutSlash("m");
  }

  /** A decimal is a component exactly below 2^32, and with a quote exactly below 2^31. */
  lemma RangeIff(number: string -> Option<int>, n: nat)
    requires ReadsDecimals(number)
    ensures Parse(number, "m/" + Decimal(n)) == if n < 0x1_0000_0000 then Some([n]) else None
    ensures Parse(number, "m/" + Decimal(n) + "'") == if n < 0x8000_0000 then Some([n + 0x8000_0000]) else None
  {
    hide Split, TrimSpace, ReadsDecimals, Decimal, Parse;
    DecimalIsDigits(n);
    DecimalIsRead(number, n);
    var plain, quoted := Decimal(n), Decimal(n) + "'";
    assert "m/" + plain + "'" == "m/" + quoted && TrimSpace("m") == "m";
    OneComponent(plain);
    OneComponent(quoted);
    PlainMeans(number, plain, n);
    QuotedMeans(number, plain, n);
    OneMeans(number, "m/" + plain, plain, n, n < 0x1_0000_0000);
    OneMeans(number, "m/" + quoted, quoted, n + 0x8000_0000, n < 0x8000_0000);
  }

  lemma PlainMeans(number: string -> Option<int>, text: string, n: nat)
    requires text != "" && (forall k :: 0 <= k < |text| ==> '0' <= text[k] <= '9') && number(text) == Some(n)
    ensures forall c: nat :: Means(number, text, c) <==> n < 0x1_0000_0000 && c == n
  {
    assert Trimmed(text) && text[|text| - 1] != '\'';
    hide TrimSpace;
  }

  lemma QuotedMeans(number: string -> Option<int>, text: string, n: nat)
    requires text != "" && (forall k :: 0 <= k < |text| ==> '0' <= text[k] <= '9') && number(text) == Some(n)
    ensures forall c: nat :: Means(number, text + "'", c) <==> n < 0x8000_0000 && c == n + 0x8000_0000
  {
    assert Trimmed(text) && Trimmed(text + "'");
    assert (text + "'")[..|text|] == text;
    hide TrimSpace;
  }

  /** A text of one component means that component or nothing. */
  lemma OneMeans(number: string -> Option<int>, text: string, component: string, c: nat, accepted: bool)
    requires Split(text) == ["m", component] && TrimSpace("m") == "m"
    requires forall d: nat :: Means(number, component, d) <==> accepted && d == c
    ensures Parse(number, text) == if accepted then Some([c]) else None
  {
    hide Parse, Split, TrimSpace, Means;
    ParsesIff(number, text, [c]);
    if Parse(number, text).Some? {
      var path := Parse(number, text).value;
      ParsesIff(number, text, path);
      assert Split(text)[1..] == [component];
      assert Means(number, [component][0], path[0]);
      assert path == [c];
    }
  }

  // ----- how paths are printed -----

  lemma PrintSnoc(path: seq<nat>, c: nat)
    ensures Print(path + [c]) == Print(path) + "/" + Component(c)
  {
    hide Component;
    assert (path + [c])[..|path|] == path;
  }

  /** The text of a path is that of the path before its last component, a slash, and the component: in decimal, with 2^31 written as a
      quote. */
  lemma PrintReads(path: seq<nat>, c: nat)
    ensures Print([]) == "m"
    ensures c < 0x8000_0000 ==> Print(path + [c]) == Print(path) + "/" + Decimal(c)
    ensures Print(path + [c + 0x8000_0000]) == Print(path) + "/" + (Decimal(c) + "'")
  {
    assert Print([]) == "m";
    PrintSnoc(path, c);
    PrintSnoc(path, c + 0x8000_0000);
    hide Print, Decimal;
  }

  /** Decimals have their value, and no leading zero. */
  lemma {:induction false} DecimalIsCanonical(n: nat)
    ensures Value(Decimal(n)) == n && (n > 0 ==> Decimal(n)[0] != '0') && (n == 0 ==> Decimal(n) == "0")
    ensures forall i :: 0 <= i < |Decimal(n)| ==> '0' <= Decimal(n)[i] <= '9'
  {
    DecimalHasValue(n);
    DecimalIsDigits(n);
    if n >= 10 { DecimalIsCanonical(n / 10); }
  }

  // ----- the iterators -----

  /** base with one component moved on by `steps`, in uint32 arithmetic. */
  function Advanced(base: seq<nat>, at: nat, steps: int): seq<nat>
    requires at < |base|
  {
    base[at := (base[at] + steps) % TWO32]
  }

  /** Over 2^32 calls in a row an iterator never repeats a path, and then it starts again. */
  lemma IteratorPeriod(base: seq<nat>, at: nat, i: nat, j: nat)
    requires at < |base| && IsPath(base)
    ensures Advanced(base, at, i) == Advanced(base, at, j) <==> (j - i) % TWO32 == 0
  {
    assert Advanced(base, at, i)[at] == (base[at] + i) % TWO32 && Advanced(base, at, j)[at] == (base[at] + j) % TWO32;
    EqualModulo(base[at] + i, base[at] + j);
  }

  lemma EqualModulo(x: nat, y: nat)
    ensures x % TWO32 == y % TWO32 <==> (y - x) % TWO32 == 0
  {
    var a, b := x / TWO32, y / TWO32;
    assert x == a * TWO32 + x % TWO32 && y == b * TWO32 + y % TWO32;
    assert y - x == (b - a) * TWO32 + (y % TWO32 - x % TWO32);
  }

  /** The closures of DefaultIterator and LedgerLiveIterator, which differ in the component they count in. */
  class PathIterator {
    const path: array<nat>
    const at: nat
    ghost const base: seq<nat>
    ghost var calls: nat

    ghost predicate Valid()
      reads this, path
    {
      && at < |base| == path.Length && IsPath(base)
      && path[..] == Advanced(base, at, calls - 1)
    }

    constructor Default(base: seq<nat>)
      requires base != [] && IsPath(base)
      ensures Valid() && fresh(path) && this.base == base && at == |base| - 1 && calls == 0
    {
      this.base, at, calls := base, |base| - 1, 0;
      path := new nat[|base|](i requires 0 <= i < |base| => base[i]);
      new;
      assert path[..] == base;
      path[at] := (path[at] - 1) % TWO32;
    }

    /** Counts in the account component of m/44'/60'/account'/0/0. */
    constructor LedgerLive(base: seq<nat>)
      requires |base| > 2 && IsPath(base)
      ensures Valid() && fresh(path) && this.base == base && at == 2 && calls == 0
    {
      this.base, at, calls := base, 2, 0;
      path := new nat[|base|](i requires 0 <= i < |base| => base[i]);
      new;
      assert path[..] == base;
      path[at] := (path[at] - 1) % TWO32;
    }

    /** The n-th call, from zero, returns the base moved on by n. Every call returns the same slice, so the path that an
        earlier call returned moves on with it. */
    method Next() returns (r: array<nat>)
      requires Valid()
      modifies this, path
      ensures Valid() && calls == old(calls) + 1
      ensures r == path && r[..] == Advanced(base, at, old(calls))
    {
      path[at] := (path[at] + 1) % TWO32;
      calls := calls + 1;
      StepModulo(base[at] + calls - 2);
      r := path;
    }
  }

  lemma StepModulo(x: int)
    ensures (x % TWO32 + 1) % TWO32 == (x + 1) % TWO32
  {}
}
