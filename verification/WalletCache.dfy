/** The account manager's cache of wallets, kept sorted by URL. */
module WalletCache {
  import opened Basics

  datatype URL = URL(scheme: string, path: string) {
    function String(): string { if scheme != "" then scheme + "://" + path else path }
  }

  /** A wallet, told from others with the same URL by its identity. */
  datatype Wallet = Wallet(url: URL, identity: nat)

  // ----- text of a URL -----

  predicate SeparatorAt(s: string, i: nat) { i + 3 <= |s| && s[i] == ':' && s[i + 1] == '/' && s[i + 2] == '/' }

  /** No "://" anywhere. */
  ghost predicate Plain(s: string) { forall i: nat :: !SeparatorAt(s, i) }

  /** Where the first "://" at or after i begins, or the length. */
  function FirstSeparator(s: string, i: nat): (n: nat)
    requires i <= |s|
    ensures i <= n <= |s|
    ensures if n == |s| then forall k :: i <= k < |s| ==> !SeparatorAt(s, k)
            else SeparatorAt(s, n) && forall k :: i <= k < n ==> !SeparatorAt(s, k)
    decreases |s| - i
  {
    if i == |s| || SeparatorAt(s, i) then i else FirstSeparator(s, i + 1)
  }

  /** strings.Split by "://". */
  function SplitSeparator(s: string): seq<string>
    decreases |s|
  {
    var n := FirstSeparator(s, 0);
    if n == |s| then [s] else [s[..n]] + SplitSeparator(s[n + 3..])
  }

  function ParseURL(s: string): Option<URL> {
    var parts := SplitSeparator(s);
    if |parts| != 2 || parts[0] == "" then None else Some(URL(parts[0], parts[1]))
  }

  lemma PlainIsOnePart(s: string)
    ensures |SplitSeparator(s)| == 1 <==> Plain(s)
    ensures Plain(s) ==> SplitSeparator(s) == [s]
  {
    var n := FirstSeparator(s, 0);
    if n < |s| { assert !Plain(s); assert |SplitSeparator(s[n + 3..])| > 0; }
  }

  /** A separator between two texts is the first one exactly when the text before it has none: none can straddle it. */
  lemma FirstSeparatorOfJoin(scheme: string, path: string)
    ensures var n := FirstSeparator(scheme + "://" + path, 0);
            if Plain(scheme) then n == |scheme| else n < |scheme|
  {
    var whole := scheme + "://" + path;
    assert whole[|scheme|] == ':' && SeparatorAt(whole, |scheme|);
    assert forall i: nat :: i < |scheme| ==> (SeparatorAt(whole, i) <==> SeparatorAt(scheme, i));
  }

  /** A URL is read back from its text exactly when it has a scheme and neither part contains "://". */
  lemma UrlRoundTripIff(u: URL)
    ensures ParseURL(u.String()) == Some(u) <==> u.scheme != "" && Plain(u.scheme) && Plain(u.path)
  {
    if u.scheme != "" {
      var whole := u.String();
      FirstSeparatorOfJoin(u.scheme, u.path);
      var n := FirstSeparator(whole, 0);
      if Plain(u.scheme) {
        assert whole[..n] == u.scheme && whole[n + 3..] == u.path;
        PlainIsOnePart(u.path);
      } else {
        assert SplitSeparator(whole)[0] == whole[..n];
      }
    }
  }

  /** An accepted text is the text of the URL read from it. */
  lemma ParsedUrlPrintsBack(s: string)
    requires ParseURL(s).Some?
    ensures ParseURL(s).value.String() == s
  {
    var n := FirstSeparator(s, 0);
    assert n < |s|;
    PlainIsOnePart(s[n + 3..]);
    assert s == s[..n] + "://" + s[n + 3..];
  }

  /** A text is read as a URL exactly when it is a scheme, "://" and a path, with no other "://" in it. */
  lemma ParsesIff(s: string, u: URL)
    ensures ParseURL(s) == Some(u) <==> u.scheme != "" && Plain(u.scheme) && Plain(u.path) && s == u.scheme + "://" + u.path
  {
    hide ParseURL, Plain;
    if u.scheme != "" { UrlRoundTripIff(u); }
    if ParseURL(s) == Some(u) {
      ParsedUrlPrintsBack(s);
      ParsedHasScheme(s);
      UrlRoundTripIff(u);
    }
  }

  lemma ParsedHasScheme(s: string)
    requires ParseURL(s).Some?
    ensures ParseURL(s).value.scheme != ""
  {}

  /** A text that is refused. */
  lemma SeparatorInPathIsRefused()
    ensures var u := URL("ledger", "usb://1"); u.String() == "ledger://usb://1" && ParseURL(u.String()) == None
  {
    hide ParseURL, FirstSeparator;
    var u := URL("ledger", "usb://1");
    var text := u.String();
    assert SeparatorAt("usb://1", 3) && text[9..] == "usb://1" && Plain("ledger");
    if ParseURL(text).Some? {
      var v := ParseURL(text).value;
      ParsesIff(text, v);
      FirstSeparatorOfJoin(v.scheme, v.path);
      FirstSeparatorOfJoin("ledger", "usb://1");
      assert false;
    }
  }

  // ----- the order -----

  /** strings.Compare. */
  function Compare(a: string, b: string): int {
    if a == "" && b == "" then 0
    else if a == "" then -1
    else if b == "" then 1
    else if a[0] != b[0] then (if a[0] < b[0] then -1 else 1)
    else Compare(a[1..], b[1..])
  }

  function Cmp(u: URL, v: URL): int {
    if u.scheme == v.scheme then Compare(u.path, v.path) else Compare(u.scheme, v.scheme)
  }

  lemma {:induction false} CompareIsOrder(a: string, b: string)
    ensures Compare(a, b) in {-1, 0, 1}
    ensures Compare(b, a) == -Compare(a, b)
    ensures Compare(a, b) == 0 <==> a == b
    decreases |a|
  {
    if a != "" && b != "" && a[0] == b[0] {
      CompareIsOrder(a[1..], b[1..]);
      assert a == [a[0]] + a[1..] && b == [b[0]] + b[1..];
    }
  }

  lemma {:induction false} CompareTransitive(a: string, b: string, c: string)
    requires Compare(a, b) <= 0 && Compare(b, c) <= 0
    ensures Compare(a, c) <= 0
    decreases |a|
  {
    if a != "" && b != "" && c != "" && a[0] == b[0] == c[0] {
      CompareTransitive(a[1..], b[1..], c[1..]);
    }
  }

  /** The dictionary order of the characters: at the first place where the texts differ the smaller character decides, and a text comes
      before its extensions. */
  ghost predicate Before(a: string, b: string) {
    || a < b
    || exists k :: 0 <= k < |a| && k < |b| && a[..k] == b[..k] && a[k] < b[k]
  }

  lemma {:induction false} CompareIsDictionary(a: string, b: string)
    ensures Compare(a, b) < 0 <==> Before(a, b)
    decreases |a|
  {
    if a != "" && b != "" {
      if a[0] == b[0] {
        CompareIsDictionary(a[1..], b[1..]);
        BeforeTail(a, b);
      } else if a[0] < b[0] {
        assert a[..0] == b[..0];
      }
    }
  }

  lemma BeforeTail(a: string, b: string)
    requires a != "" && b != "" && a[0] == b[0]
    ensures Before(a, b) <==> Before(a[1..], b[1..])
  {
    assert a == [a[0]] + a[1..] && b == [b[0]] + b[1..];
    assert a < b <==> a[1..] < b[1..];
    if k :| 0 <= k < |a| && k < |b| && a[..k] == b[..k] && a[k] < b[k] {
      assert k > 0;
      assert a[1..][..k - 1] == a[..k][1..] && b[1..][..k - 1] == b[..k][1..];
      assert a[1..][k - 1] < b[1..][k - 1];
    }
    if k :| 0 <= k < |a[1..]| && k < |b[1..]| && a[1..][..k] == b[1..][..k] && a[1..][k] < b[1..][k] {
      assert a[..k + 1] == [a[0]] + a[1..][..k] && b[..k + 1] == [b[0]] + b[1..][..k];
      assert a[k + 1] < b[k + 1];
    }
  }

  /** URLs are ordered by scheme and then by path, each as in a dictionary. */
  lemma CmpIsDictionary(u: URL, v: URL)
    ensures Cmp(u, v) < 0 <==> Before(u.scheme, v.scheme) || (u.scheme == v.scheme && Before(u.path, v.path))
  {
    hide Compare, Before;
    CompareIsDictionary(u.scheme, v.scheme);
    CompareIsDictionary(u.path, v.path);
    CompareIsOrder(u.scheme, v.scheme);
  }

  /** Cmp is a total order on URLs, and says 0 for equal URLs only. */
  lemma CmpIsTotalOrder(u: URL, v: URL, w: URL)
    ensures Cmp(u, v) in {-1, 0, 1}
    ensures Cmp(v, u) == -Cmp(u, v)
    ensures Cmp(u, v) == 0 <==> u == v
    ensures Cmp(u, v) <= 0 && Cmp(v, w) <= 0 ==> Cmp(u, w) <= 0
  {
    hide Compare;
    CompareIsOrder(u.scheme, v.scheme);
    CompareIsOrder(v.scheme, w.scheme);
    CompareIsOrder(u.scheme, w.scheme);
    CompareIsOrder(u.path, v.path);
    if Cmp(u, v) <= 0 && Cmp(v, w) <= 0 {
      if u.scheme == v.scheme == w.scheme {
        CompareTransitive(u.path, v.path, w.path);
      } else {
        CompareTransitive(u.scheme, v.scheme, w.scheme);
      }
    }
  }

  // ----- merge and drop as functions -----

  ghost predicate Sorted(s: seq<Wallet>) {
    forall i, j :: 0 <= i < j < |s| ==> Cmp(s[i].url, s[j].url) <= 0
  }

  /** Where the wallets from `u` on begin. */
  function Position(s: seq<Wallet>, u: URL): (n: nat)
    ensures n <= |s|
  {
    if s == [] then 0
    else if Cmp(s[0].url, u) >= 0 then 0
    else 1 + Position(s[1..], u)
  }

  function Merged(s: seq<Wallet>, w: Wallet): seq<Wallet> {
    var n := Position(s, w.url);
    s[..n] + [w] + s[n..]
  }

  function Dropped(s: seq<Wallet>, w: Wallet): seq<Wallet> {
    var n := Position(s, w.url);
    if n == |s| then s else s[..n] + s[n + 1..]
  }

  function MergedAll(s: seq<Wallet>, ws: seq<Wallet>): seq<Wallet> {
    if ws == [] then s else Merged(MergedAll(s, ws[..|ws| - 1]), ws[|ws| - 1])
  }

  function DroppedAll(s: seq<Wallet>, ws: seq<Wallet>): seq<Wallet> {
    if ws == [] then s else Dropped(DroppedAll(s, ws[..|ws| - 1]), ws[|ws| - 1])
  }

  /** What a binary search relies on: on a sorted slice the test is false before the position and true from it on. */
  lemma {:induction false} PositionSplits(s: seq<Wallet>, u: URL)
    requires Sorted(s)
    ensures forall i :: 0 <= i < |s| ==> (i >= Position(s, u) <==> Cmp(s[i].url, u) >= 0)
    decreases |s|
  {
    if s != [] {
      if Cmp(s[0].url, u) >= 0 {
        forall i | 0 <= i < |s| ensures Cmp(s[i].url, u) >= 0 {
          CmpIsTotalOrder(u, s[0].url, s[i].url);
          CmpIsTotalOrder(s[0].url, u, u);
          CmpIsTotalOrder(s[i].url, u, u);
          CmpIsTotalOrder(s[0].url, s[i].url, u);
        }
      } else {
        PositionSplits(s[1..], u);
        assert forall i :: 0 < i < |s| ==> s[i] == s[1..][i - 1];
      }
    }
  }

  predicate Present(s: seq<Wallet>, u: URL) { exists i :: 0 <= i < |s| && s[i].url == u }

  /** If any wallet has the URL, the one at its position has. */
  lemma PresentIsAtPosition(s: seq<Wallet>, u: URL)
    requires Sorted(s)
    ensures Present(s, u) <==> Position(s, u) < |s| && s[Position(s, u)].url == u
  {
    PositionSplits(s, u);
    var n := Position(s, u);
    hide Position;
    forall i | 0 <= i < |s| && s[i].url == u ensures n < |s| && s[n].url == u {
      CmpIsTotalOrder(s[i].url, u, u);
      CmpIsTotalOrder(s[n].url, u, u);
      CmpIsTotalOrder(u, s[n].url, u);
    }
  }

  lemma MergeAddsOne(s: seq<Wallet>, w: Wallet)
    ensures multiset(Merged(s, w)) == multiset(s) + multiset{w}
  {
    hide Position;
    var n := Position(s, w.url);
    assert s == s[..n] + s[n..];
  }

  lemma MergeKeepsSorted(s: seq<Wallet>, w: Wallet)
    requires Sorted(s)
    ensures Sorted(Merged(s, w)) && multiset(Merged(s, w)) == multiset(s) + multiset{w}
  {
    hide Cmp, Position;
    MergeAddsOne(s, w);
    PositionSplits(s, w.url);
    var n, t := Position(s, w.url), Merged(s, w);
    forall i, j | 0 <= i < j < |t| ensures Cmp(t[i].url, t[j].url) <= 0 {
      if i == n {
        assert t[j] == s[j - 1];
        CmpIsTotalOrder(s[j - 1].url, w.url, w.url);
      } else if j == n {
        assert t[i] == s[i];
      } else {
        assert t[i] == s[if i < n then i else i - 1] && t[j] == s[if j < n then j else j - 1];
      }
    }
  }

  lemma DropShape(s: seq<Wallet>, w: Wallet)
    requires Sorted(s)
    ensures Sorted(Dropped(s, w))
    ensures var n := Position(s, w.url);
            if n == |s| then Dropped(s, w) == s
            else multiset(Dropped(s, w)) == multiset(s) - multiset{s[n]} && |Dropped(s, w)| == |s| - 1
  {
    hide Cmp, Position;
    var n := Position(s, w.url);
    if n < |s| {
      assert s == s[..n] + [s[n]] + s[n + 1..];
      var t := Dropped(s, w);
      forall i, j | 0 <= i < j < |t| ensures Cmp(t[i].url, t[j].url) <= 0 {
        assert t[i] == s[if i < n then i else i + 1] && t[j] == s[if j < n then j else j + 1];
      }
    }
  }

  /** t is s without one wallet of that URL. */
  ghost predicate TakesOut(s: seq<Wallet>, t: seq<Wallet>, u: URL) {
    exists x :: x in s && x.url == u && multiset(t) == multiset(s) - multiset{x}
  }

  /** What a drop should do: take out one wallet with the URL, or nothing when no wallet has it. */
  ghost predicate RightDrop(s: seq<Wallet>, t: seq<Wallet>, u: URL) {
    if Present(s, u) then TakesOut(s, t, u) else t == s
  }

  /** The drop takes whatever is at the position, without comparing: it is right exactly when the URL is present or
      nothing in the cache sorts after it. */
  lemma DropIsRightIff(s: seq<Wallet>, w: Wallet)
    requires Sorted(s)
    ensures RightDrop(s, Dropped(s, w), w.url) <==>
            Present(s, w.url) || forall i :: 0 <= i < |s| ==> Cmp(s[i].url, w.url) < 0
  {
    PositionSplits(s, w.url);
    PresentIsAtPosition(s, w.url);
    DropShape(s, w);
    hide Cmp, Position, Dropped, Present, Sorted;
    var n := Position(s, w.url);
    if Present(s, w.url) {
      assert s[n] in s;
    } else if n < |s| {
      assert Cmp(s[n].url, w.url) >= 0;
    }
  }

  /** Such a drop: the URL is absent, and the wallet of another goes. */
  lemma AbsentDropTakesAnother(identity: nat, other: nat)
    ensures var s, w := [Wallet(URL("b", ""), identity)], Wallet(URL("a", ""), other);
            Sorted(s) && !Present(s, w.url) && Dropped(s, w) == [] && !RightDrop(s, Dropped(s, w), w.url)
  {
    var s, w := [Wallet(URL("b", ""), identity)], Wallet(URL("a", ""), other);
    assert Cmp(s[0].url, w.url) == 1;
    DropIsRightIff(s, w);
  }

  /** Dropping a wallet that has just been merged restores the slice, element by element. */
  lemma DropUndoesMerge(s: seq<Wallet>, w: Wallet)
    requires Sorted(s)
    ensures Dropped(Merged(s, w), w) == s
  {
    PositionSplits(s, w.url);
    MergeKeepsSorted(s, w);
    PositionSplits(Merged(s, w), w.url);
    CmpIsTotalOrder(w.url, w.url, w.url);
    var n, t := Position(s, w.url), Merged(s, w);
    hide Cmp, Position;
    assert t[n] == w;
    assert n > 0 ==> t[n - 1] == s[n - 1];
    assert Position(t, w.url) == n;
    assert t[..n] == s[..n] && t[n + 1..] == s[n..];
  }

  // ----- runs -----

  datatype Event = Arrived(wallet: Wallet) | Gone(wallet: Wallet)

  function Handle(s: seq<Wallet>, e: Event): seq<Wallet> {
    if e.Arrived? then Merged(s, e.wallet) else Dropped(s, e.wallet)
  }

  function Run(s: seq<Wallet>, events: seq<Event>): seq<Wallet> {
    if events == [] then s else Handle(Run(s, events[..|events| - 1]), events[|events| - 1])
  }

  function Urls(s: seq<Wallet>): multiset<URL> {
    if s == [] then multiset{} else Urls(s[..|s| - 1]) + multiset{s[|s| - 1].url}
  }

  /** The URLs that should be in the cache: those that arrived, less those that left. */
  function Balance(urls: multiset<URL>, events: seq<Event>): multiset<URL> {
    if events == [] then urls
    else
      var before := Balance(urls, events[..|events| - 1]);
      var e := events[|events| - 1];
      if e.Arrived? then before + multiset{e.wallet.url} else before - multiset{e.wallet.url}
  }

  /** Every wallet that leaves is one whose URL is present. */
  ghost predicate DropsPresent(urls: multiset<URL>, events: seq<Event>) {
    forall k :: 0 <= k < |events| && events[k].Gone? ==> events[k].wallet.url in Balance(urls, events[..k])
  }

  lemma {:induction false} UrlsOfParts(a: seq<Wallet>, b: seq<Wallet>)
    ensures Urls(a + b) == Urls(a) + Urls(b)
    decreases |b|
  {
    if b == [] {
      assert a + b == a;
    } else {
      assert (a + b)[..|a + b| - 1] == a + b[..|b| - 1];
      UrlsOfParts(a, b[..|b| - 1]);
    }
  }

  lemma {:induction false} UrlPresent(s: seq<Wallet>, u: URL)
    ensures u in Urls(s) <==> exists i :: 0 <= i < |s| && s[i].url == u
    decreases |s|
  {
    if s != [] {
      UrlPresent(s[..|s| - 1], u);
    }
  }

  lemma UrlsOfOne(w: Wallet)
    ensures Urls([w]) == multiset{w.url}
  {
    assert [w][..0] == [] && Urls([w]) == Urls([]) + multiset{w.url};
  }

  lemma MergeAddsUrl(s: seq<Wallet>, w: Wallet)
    ensures Urls(Merged(s, w)) == Urls(s) + multiset{w.url}
  {
    hide Urls, Position;
    var n := Position(s, w.url);
    assert s == s[..n] + s[n..];
    UrlsOfParts(s[..n], s[n..]);
    UrlsOfOne(w);
    UrlsOfParts(s[..n], [w]);
    UrlsOfParts(s[..n] + [w], s[n..]);
  }

  lemma UrlsWithout(s: seq<Wallet>, n: nat)
    requires n < |s|
    ensures Urls(s[..n] + s[n + 1..]) == Urls(s) - multiset{s[n].url}
  {
    hide Urls;
    var front, one, back := s[..n], [s[n]], s[n + 1..];
    assert s == front + (one + back);
    UrlsOfParts(front, one + back);
    UrlsOfParts(one, back);
    UrlsOfParts(front, back);
    UrlsOfOne(s[n]);
  }

  lemma DropTakesUrl(s: seq<Wallet>, w: Wallet)
    requires Sorted(s) && Present(s, w.url)
    ensures Urls(Dropped(s, w)) == Urls(s) - multiset{w.url}
  {
    hide Urls, Position, Sorted, Present, Cmp;
    PresentIsAtPosition(s, w.url);
    UrlsWithout(s, Position(s, w.url));
  }

  lemma HandleKeepsBalance(s: seq<Wallet>, e: Event)
    requires Sorted(s) && (e.Gone? ==> e.wallet.url in Urls(s))
    ensures Sorted(Handle(s, e))
    ensures Urls(Handle(s, e)) == if e.Arrived? then Urls(s) + multiset{e.wallet.url} else Urls(s) - multiset{e.wallet.url}
  {
    hide Urls, Sorted, Merged, Dropped;
    if e.Arrived? {
      MergeKeepsSorted(s, e.wallet);
      MergeAddsUrl(s, e.wallet);
    } else {
      UrlPresent(s, e.wallet.url);
      DropShape(s, e.wallet);
      DropTakesUrl(s, e.wallet);
    }
  }

  /** Over any sequence of arrivals and departures in which only present URLs leave, the cache stays sorted and holds
      exactly the URLs that arrived and have not left. */
  lemma {:induction false} CacheIsBalance(s: seq<Wallet>, events: seq<Event>)
    requires Sorted(s) && DropsPresent(Urls(s), events)
    ensures Sorted(Run(s, events)) && Urls(Run(s, events)) == Balance(Urls(s), events)
    decreases |events|
  {
    if events != [] {
      var init := events[..|events| - 1];
      forall k | 0 <= k < |init| && init[k].Gone? ensures init[k].wallet.url in Balance(Urls(s), init[..k]) {
        assert init[..k] == events[..k] && init[k] == events[k];
      }
      CacheIsBalance(s, init);
      HandleKeepsBalance(Run(s, init), events[|events| - 1]);
    }
  }

  /** A merge of several wallets adds exactly these. */
  lemma {:induction false} MergedAllAddsAll(s: seq<Wallet>, ws: seq<Wallet>)
    requires Sorted(s)
    ensures Sorted(MergedAll(s, ws)) && multiset(MergedAll(s, ws)) == multiset(s) + multiset(ws)
    decreases |ws|
  {
    hide Sorted, Merged;
    if ws != [] {
      var init, last := ws[..|ws| - 1], ws[|ws| - 1];
      assert ws == init + [last];
      MergedAllAddsAll(s, init);
      MergeKeepsSorted(MergedAll(s, init), last);
    }
  }

  /** A drop of several wallets that are all there, counted by URL, takes exactly so many of each URL. */
  lemma {:induction false} DroppedAllTakesAll(s: seq<Wallet>, ws: seq<Wallet>)
    requires Sorted(s) && Urls(ws) <= Urls(s)
    ensures Sorted(DroppedAll(s, ws)) && Urls(DroppedAll(s, ws)) == Urls(s) - Urls(ws)
    decreases |ws|
  {
    hide Sorted, Dropped;
    if ws != [] {
      var init, last := ws[..|ws| - 1], ws[|ws| - 1];
      DroppedAllTakesAll(s, init);
      assert Urls(ws) == Urls(init) + multiset{last.url};
      assert last.url in Urls(s) - Urls(init);
      HandleKeepsBalance(DroppedAll(s, init), Gone(last));
    }
  }

  // ----- the slice -----

  /** sort.Search with the test of merge and drop. */
  method Search(s: seq<Wallet>, u: URL) returns (n: nat)
    requires Sorted(s)
    ensures n == Position(s, u)
    ensures forall i :: 0 <= i < |s| ==> (i < n <==> Cmp(s[i].url, u) < 0)
  {
    PositionSplits(s, u);
    hide Cmp, Sorted, Position;
    n := 0;
    var j := |s|;
    while n < j
      invariant n <= j <= |s|
      invariant forall i :: 0 <= i < n ==> Cmp(s[i].url, u) < 0
      invariant forall i :: j <= i < |s| ==> Cmp(s[i].url, u) >= 0
    {
      var h := (n + j) / 2;
      if Cmp(s[h].url, u) < 0 { n := h + 1; } else { j := h; }
    }
    assert n < |s| ==> Cmp(s[n].url, u) >= 0;
    assert n > 0 ==> Cmp(s[n - 1].url, u) < 0;
  }

  class Manager {
    var wallets: seq<Wallet>

    constructor ()
      ensures wallets == []
    {
      wallets := [];
    }

    method Merge(arrived: seq<Wallet>)
      requires Sorted(wallets)
      modifies this
      ensures wallets == MergedAll(old(wallets), arrived) && Sorted(wallets)
      ensures multiset(wallets) == multiset(old(wallets)) + multiset(arrived)
    {
      hide Merged, Sorted;
      ghost var before := wallets;
      MergedAllAddsAll(before, arrived);
      for i := 0 to |arrived|
        invariant wallets == MergedAll(before, arrived[..i]) && Sorted(wallets)
      {
        assert arrived[..i + 1][..i] == arrived[..i];
        MergeOne(arrived[i]);
      }
      assert arrived[..|arrived|] == arrived;
    }

    /** The body of the loop. */
    method MergeOne(wallet: Wallet)
      requires Sorted(wallets)
      modifies this
      ensures wallets == Merged(old(wallets), wallet) && Sorted(wallets)
    {
      hide Cmp, Position, Sorted;
      MergeKeepsSorted(wallets, wallet);
      var n := Search(wallets, wallet.url);
      if n == |wallets| {
        assert wallets[..n] + [wallet] + wallets[n..] == wallets + [wallet];
        wallets := wallets + [wallet];
      } else {
        assert wallets[..n] + ([wallet] + wallets[n..]) == wallets[..n] + [wallet] + wallets[n..];
        wallets := wallets[..n] + ([wallet] + wallets[n..]);
      }
    }

    method Drop(gone: seq<Wallet>)
      requires Sorted(wallets)
      modifies this
      ensures wallets == DroppedAll(old(wallets), gone) && Sorted(wallets)
      ensures Urls(gone) <= Urls(old(wallets)) ==> Urls(wallets) == Urls(old(wallets)) - Urls(gone)
    {
      hide Dropped, Sorted, Urls;
      ghost var before := wallets;
      if Urls(gone) <= Urls(before) { DroppedAllTakesAll(before, gone); }
      for i := 0 to |gone|
        invariant wallets == DroppedAll(before, gone[..i]) && Sorted(wallets)
      {
        assert gone[..i + 1][..i] == gone[..i];
        DropOne(gone[i]);
      }
      assert gone[..|gone|] == gone;
    }

    /** The body of the loop. */
    method DropOne(wallet: Wallet)
      requires Sorted(wallets)
      modifies this
      ensures wallets == Dropped(old(wallets), wallet) && Sorted(wallets)
    {
      hide Cmp, Position, Sorted;
      DropShape(wallets, wallet);
      var n := Search(wallets, wallet.url);
      if n != |wallets| { wallets := wallets[..n] + wallets[n + 1..]; }
    }

    /** One turn of the event loop in update. */
    method Update(e: Event)
      requires Sorted(wallets)
      modifies this
      ensures wallets == Handle(old(wallets), e) && Sorted(wallets)
    {
      assert [e.wallet][..0] == [] && MergedAll(wallets, []) == wallets && DroppedAll(wallets, []) == wallets;
      if e.Arrived? { Merge([e.wallet]); } else { Drop([e.wallet]); }
    }
  }
}
