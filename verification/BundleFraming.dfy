/**
 The byte stream behind a mapping bundle's fingerprint: each file's path and contents, a zero byte
 after each, in a fixed order of paths. Where no path and no content holds a zero byte, the stream
 determines the files.
 */
module BundleFraming {
  import opened Wrappers

  type Byte = b: int | 0 <= b < 256

  type Bytes = seq<Byte>

  /** Relative path, as encoded, to contents. */
  type Files = map<Bytes, Bytes>

  datatype Entry = Entry(path: Bytes, content: Bytes)

  const NUL: Byte := 0

  // ----------------------------------------------------------------- the stream

  function Frame(e: Entry): Bytes {
    e.path + [NUL] + e.content + [NUL]
  }

  function Stream(es: seq<Entry>): Bytes {
    if es == [] then [] else Frame(es[0]) + Stream(es[1..])
  }

  /** A total order on paths. */
  ghost predicate TotalOrder(le: (Bytes, Bytes) -> bool) {
    && (forall a, b :: le(a, b) || le(b, a))
    && (forall a, b :: le(a, b) && le(b, a) ==> a == b)
    && (forall a, b, c :: le(a, b) && le(b, c) ==> le(a, c))
  }

  ghost predicate Listed(es: seq<Entry>, p: Bytes) {
    exists i :: 0 <= i < |es| && es[i].path == p
  }

  /** `es` is every file once, in order of paths. */
  ghost predicate Lists(files: Files, le: (Bytes, Bytes) -> bool, es: seq<Entry>) {
    && (forall i :: 0 <= i < |es| ==> es[i].path in files && files[es[i].path] == es[i].content)
    && (forall p {:trigger Listed(es, p)} :: p in files ==> Listed(es, p))
    && (forall i, j :: 0 <= i < j < |es| ==> es[i].path != es[j].path && le(es[i].path, es[j].path))
  }

  ghost predicate Least(ps: set<Bytes>, le: (Bytes, Bytes) -> bool, p: Bytes) {
    p in ps && forall x :: x in ps ==> le(p, x)
  }

  method First(ps: set<Bytes>, le: (Bytes, Bytes) -> bool) returns (p: Bytes)
    requires TotalOrder(le) && ps != {}
    ensures Least(ps, le, p)
  {
    p := AnyOf(ps);
    var todo := ps - {p};
    while todo != {}
      invariant todo <= ps && p in ps && forall y :: y in ps && y !in todo ==> le(p, y)
      decreases todo
    {
      var y := AnyOf(todo);
      if !le(p, y) { p := y; }
      todo := todo - {y};
    }
  }

  method AnyOf(ps: set<Bytes>) returns (p: Bytes)
    requires ps != {}
    ensures p in ps
  {
    p :| p in ps;
  }

  /** `bundle_sha` up to the digest: the sorted files, fed one after another. */
  method Bundle(files: Files, le: (Bytes, Bytes) -> bool) returns (stream: Bytes)
    requires TotalOrder(le)
    ensures exists es :: Lists(files, le, es) && stream == Stream(es)
  {
    ghost var es: seq<Entry> := [];
    stream := [];
    var todo := files.Keys;
    while todo != {}
      invariant todo <= files.Keys && stream == Stream(es)
      invariant forall i :: 0 <= i < |es| ==>
          es[i].path in files && es[i].path !in todo && files[es[i].path] == es[i].content
      invariant forall p {:trigger Listed(es, p)} :: p in files && p !in todo ==> Listed(es, p)
      invariant forall i, j :: 0 <= i < j < |es| ==> es[i].path != es[j].path && le(es[i].path, es[j].path)
      invariant forall i, p :: 0 <= i < |es| && p in todo ==> le(es[i].path, p)
      decreases todo
    {
      var path := First(todo, le);
      var content := files[path];
      StreamGrows(es, Entry(path, content));
      stream := stream + path + [NUL] + content + [NUL];
      ghost var before := es;
      es := es + [Entry(path, content)];
      assert es[|before|].path == path;
      assert forall i :: 0 <= i < |before| ==> es[i] == before[i];
      todo := todo - {path};
      forall p {:trigger Listed(es, p)} | p in files && p !in todo ensures Listed(es, p) {
        if p != path {
          var listed := Listed(before, p);
          assert listed;
        }
      }
    }
  }

  lemma {:induction false} StreamGrows(es: seq<Entry>, e: Entry)
    ensures Stream(es + [e]) == Stream(es) + e.path + [NUL] + e.content + [NUL]
  {
    if es == [] {
      assert es + [e] == [e];
      assert Stream([e]) == Frame(e) + Stream([]);
    } else {
      assert (es + [e])[1..] == es[1..] + [e];
      StreamGrows(es[1..], e);
    }
  }

  /** A listing in any one place: what stands before, the file with its two zero bytes, what comes after. */
  lemma {:induction false} StreamsJoin(before: seq<Entry>, e: Entry, after: seq<Entry>)
    ensures Stream([]) == []
    ensures Stream(before + [e] + after) == Stream(before) + (e.path + [NUL] + e.content + [NUL]) + Stream(after)
  {
    var es := before + [e] + after;
    if before == [] {
      assert es[0] == e && es[1..] == after;
    } else {
      var rest := before[1..];
      assert es[0] == before[0] && es[1..] == rest + [e] + after;
      StreamsJoin(rest, e, after);
    }
  }

  lemma PlaceInOrder(files: Files, le: (Bytes, Bytes) -> bool, es: seq<Entry>, p: Bytes, q: Bytes, i: nat, j: nat,
      k: nat)
    requires TotalOrder(le) && Lists(files, le, es) && files.Keys == {p, q} && p != q && le(p, q)
    requires i < |es| && es[i].path == p && j < |es| && es[j].path == q && k < |es|
    ensures i < j && (k == i || k == j)
  {
    assert es[k].path in files.Keys;
    if j < i { assert false; }
  }

  /** Of two files the one whose path comes first in the order is fed first. */
  lemma TwoFilesInOrder(files: Files, le: (Bytes, Bytes) -> bool, es: seq<Entry>, p: Bytes, q: Bytes)
    requires TotalOrder(le) && Lists(files, le, es) && files.Keys == {p, q} && p != q && le(p, q)
    ensures Stream(es) == p + [0] + files[p] + [0] + q + [0] + files[q] + [0]
  {
    var listed, listed' := Listed(es, p), Listed(es, q);
    assert listed && listed';
    var i :| 0 <= i < |es| && es[i].path == p;
    var j :| 0 <= j < |es| && es[j].path == q;
    PlaceInOrder(files, le, es, p, q, i, j, 0);
    PlaceInOrder(files, le, es, p, q, i, j, 1);
    PlaceInOrder(files, le, es, p, q, i, j, |es| - 1);
    assert es == [] + [es[0]] + [es[1]] && [es[1]] == [] + [es[1]] + [];
    StreamsJoin([], es[0], [es[1]]);
    StreamsJoin([], es[1], []);
  }

  // ----------------------------------------------------------------- the parser

  /** Where the next zero byte stands, or the end. */
  function NextNul(s: Bytes): (k: nat)
    ensures k <= |s| && (k < |s| ==> s[k] == NUL) && forall i :: 0 <= i < k ==> s[i] != NUL
  {
    if s == [] || s[0] == NUL then 0 else 1 + NextNul(s[1..])
  }

  function Parse(s: Bytes): Option<seq<Entry>>
    decreases |s|
  {
    if s == [] then Some([])
    else
      var k := NextNul(s);
      if k == |s| then None
      else
        var rest := s[k + 1..];
        var m := NextNul(rest);
        if m == |rest| then None
        else
          var tail := Parse(rest[m + 1..]);
          if tail.None? then None else Some([Entry(s[..k], rest[..m])] + tail.value)
  }

  predicate NulFree(s: Bytes) {
    NUL !in s
  }

  ghost predicate Clean(es: seq<Entry>) {
    forall i :: 0 <= i < |es| ==> NulFree(es[i].path) && NulFree(es[i].content)
  }

  lemma NulStandsAfter(word: Bytes, rest: Bytes)
    requires NulFree(word)
    ensures var s := word + [NUL] + rest;
            NextNul(s) == |word| < |s| && s[..|word|] == word && s[|word| + 1..] == rest
  {
    var s := word + [NUL] + rest;
    var k := NextNul(s);
    assert s[|word|] == NUL;
    forall i | 0 <= i < |word| ensures s[i] != NUL {
      assert s[i] == word[i] && word[i] in word;
    }
  }

  lemma StreamHead(es: seq<Entry>)
    requires es != []
    ensures Stream(es) == Frame(es[0]) + Stream(es[1..])
  {
  }

  /** A clean frame in front of a stream parses to its file in front of the stream's. */
  lemma FrameParses(e: Entry, tail: Bytes)
    requires NulFree(e.path) && NulFree(e.content)
    ensures var rest := Parse(tail); Parse(Frame(e) + tail) == if rest.None? then None else Some([e] + rest.value)
  {
    hide NextNul, NulFree;
    var rest := e.content + [NUL] + tail;
    assert Frame(e) + tail == e.path + [NUL] + rest;
    NulStandsAfter(e.path, rest);
    NulStandsAfter(e.content, tail);
  }

  lemma NothingParses()
    ensures Parse(Stream([])) == Some([])
  {
  }

  /** The parser recovers the files of a stream, in their order. */
  lemma {:induction false} ParseRecovers(es: seq<Entry>)
    requires Clean(es)
    ensures Parse(Stream(es)) == Some(es)
  {
    hide Frame, Stream, Parse, NulFree;
    if es == [] {
      NothingParses();
    } else {
      var e, rest := es[0], es[1..];
      StreamHead(es);
      FrameParses(e, Stream(rest));
      ParseRecovers(rest);
      assert es == [e] + rest;
    }
  }

  // -------------------------------------------------------------- one stream, one bundle

  /** Past a common beginning, the next file of one listing stands somewhere in the rest of the other. */
  lemma PlaceOf(files: Files, le: (Bytes, Bytes) -> bool, a: seq<Entry>, b: seq<Entry>, k: nat) returns (i: nat)
    requires Lists(files, le, a) && Lists(files, le, b) && k < |a| && k <= |b|
    requires forall j :: 0 <= j < k ==> a[j] == b[j]
    ensures k <= i < |b| && b[i] == a[k]
  {
    var p := a[k].path;
    assert p in files;
    forall j | 0 <= j < k ensures b[j].path != p { assert a[j].path != p; }
    var listed := Listed(b, p);
    assert listed;
    i :| 0 <= i < |b| && b[i].path == p;
  }

  lemma InOrder(files: Files, le: (Bytes, Bytes) -> bool, es: seq<Entry>, i: nat, j: nat)
    requires TotalOrder(le) && Lists(files, le, es) && i <= j < |es|
    ensures le(es[i].path, es[j].path)
  {
  }

  lemma NeitherFirst(le: (Bytes, Bytes) -> bool, p: Bytes, q: Bytes)
    requires TotalOrder(le) && le(p, q) && le(q, p)
    ensures p == q
  {
  }

  lemma NextAgrees(files: Files, le: (Bytes, Bytes) -> bool, a: seq<Entry>, b: seq<Entry>, k: nat)
    requires TotalOrder(le) && Lists(files, le, a) && Lists(files, le, b) && k < |a| && k <= |b|
    requires forall j :: 0 <= j < k ==> a[j] == b[j]
    ensures k < |b| && a[k] == b[k]
  {
    var i := PlaceOf(files, le, a, b, k);
    var j := PlaceOf(files, le, b, a, k);
    InOrder(files, le, b, k, i);
    InOrder(files, le, a, k, j);
    NeitherFirst(le, a[k].path, b[k].path);
  }

  ghost predicate AgreeUpTo(a: seq<Entry>, b: seq<Entry>, n: nat) {
    n <= |a| && n <= |b| && forall j :: 0 <= j < n ==> a[j] == b[j]
  }

  /** Files have one listing. */
  lemma {:induction false} ListingIsUnique(files: Files, le: (Bytes, Bytes) -> bool, a: seq<Entry>, b: seq<Entry>,
      n: nat)
    requires TotalOrder(le) && Lists(files, le, a) && Lists(files, le, b) && n <= |a|
    ensures AgreeUpTo(a, b, n)
  {
    if n > 0 {
      ListingIsUnique(files, le, a, b, n - 1);
      NextAgrees(files, le, a, b, n - 1);
    }
  }

  lemma ListingsAgree(files: Files, le: (Bytes, Bytes) -> bool, a: seq<Entry>, b: seq<Entry>)
    requires TotalOrder(le) && Lists(files, le, a) && Lists(files, le, b)
    ensures a == b
  {
    ListingIsUnique(files, le, a, b, |a|);
    ListingIsUnique(files, le, b, a, |b|);
  }

  lemma SameListingSameFiles(f: Files, g: Files, le: (Bytes, Bytes) -> bool, es: seq<Entry>)
    requires Lists(f, le, es) && Lists(g, le, es)
    ensures f == g
  {
    forall p ensures p in f <==> p in g {
      var listed := Listed(es, p);
      assert p in f || p in g ==> listed;
    }
    forall p | p in f ensures f[p] == g[p] {
      var listed := Listed(es, p);
      assert listed;
    }
  }

  /** For any order of paths and any number of files, two clean bundles give one stream exactly when they are one. */
  lemma OneStreamOneBundle(f: Files, g: Files, le: (Bytes, Bytes) -> bool, a: seq<Entry>, b: seq<Entry>)
    requires TotalOrder(le) && Lists(f, le, a) && Lists(g, le, b) && Clean(a) && Clean(b)
    ensures Stream(a) == Stream(b) <==> f == g
  {
    if Stream(a) == Stream(b) {
      ParseRecovers(a);
      ParseRecovers(b);
      SameListingSameFiles(f, g, le, a);
    } else if f == g {
      ListingsAgree(f, le, a, b);
    }
  }

  /** The second file's path and contents taken into the first file's contents, zero bytes and all. */
  function Swallowed(es: seq<Entry>): seq<Entry>
    requires |es| >= 2
  {
    [Entry(es[0].path, es[0].content + [NUL] + es[1].path + [NUL] + es[1].content)] + es[2..]
  }

  lemma FramesMerge(a: Entry, b: Entry)
    ensures Frame(Entry(a.path, a.content + [NUL] + b.path + [NUL] + b.content)) == Frame(a) + Frame(b)
  {
  }

  lemma Joins(f: Bytes, g: Bytes, tail: Bytes)
    ensures f + (g + tail) == (f + g) + tail
  {
  }

  lemma SwallowedParts(es: seq<Entry>)
    requires |es| >= 2
    ensures Swallowed(es) != [] && Swallowed(es)[1..] == es[2..] &&
        Frame(Swallowed(es)[0]) == Frame(es[0]) + Frame(es[1])
    ensures es[1..][0] == es[1] && es[1..][1..] == es[2..]
  {
    FramesMerge(es[0], es[1]);
  }

  lemma SwallowedStreamsAlike(es: seq<Entry>)
    requires |es| >= 2
    ensures Stream(Swallowed(es)) == Stream(es)
  {
    hide Frame, Stream, Swallowed;
    SwallowedParts(es);
    StreamHead(es);
    StreamHead(es[1..]);
    StreamHead(Swallowed(es));
    Joins(Frame(es[0]), Frame(es[1]), Stream(es[2..]));
  }

  /** A zero byte inside a file is enough: every bundle of two or more files shares its stream with another bundle. */
  lemma AZeroByteMakesTwoAlike(files: Files, le: (Bytes, Bytes) -> bool, es: seq<Entry>) returns (other: Files)
    requires Lists(files, le, es) && |es| >= 2
    ensures other != files && Lists(other, le, Swallowed(es)) && Stream(Swallowed(es)) == Stream(es)
  {
    var m, gone := Swallowed(es), es[1].path;
    other := (map p | p in files && p != gone :: if p == es[0].path then m[0].content else files[p]);
    SwallowedStreamsAlike(es);
    forall p {:trigger Listed(m, p)} | p in other ensures Listed(m, p) {
      var listed := Listed(es, p);
      assert listed;
      var i :| 0 <= i < |es| && es[i].path == p;
      assert m[if i == 0 then 0 else i - 1].path == p;
    }
    assert gone in files && gone !in other;
  }

  // -------------------------------------------------------------------- two orders

  /** Byte by byte, a prefix first. */
  predicate Lexicographic(a: Bytes, b: Bytes) {
    a == [] || (b != [] && (a[0] < b[0] || (a[0] == b[0] && Lexicographic(a[1..], b[1..]))))
  }

  /** How Python orders path objects: component by component. */
  predicate ByComponent(a: seq<Bytes>, b: seq<Bytes>) {
    a == [] || (b != [] && ((a[0] != b[0] && Lexicographic(a[0], b[0])) ||
      (a[0] == b[0] && ByComponent(a[1..], b[1..]))))
  }

  const SLASH: Byte := 47

  function Joined(cs: seq<Bytes>): Bytes
    decreases |cs|, 1
  {
    if |cs| == 0 then [] else cs[0] + After(cs)
  }

  function After(cs: seq<Bytes>): Bytes
    requires |cs| > 0
    decreases |cs|, 0
  {
    if |cs| == 1 then [] else [SLASH] + Joined(cs[1..])
  }

  /** Components as a path has them: none empty, none with a slash. */
  predicate Proper(cs: seq<Bytes>) {
    forall i :: 0 <= i < |cs| ==> cs[i] != [] && SLASH !in cs[i]
  }

  /**
   After equal leading components, `a`'s next is a proper prefix of `b`'s and `a` goes on, so that a
   slash in `a` meets a byte of `b`; and that byte is below the slash.
   */
  predicate Straddles(a: seq<Bytes>, b: seq<Bytes>) {
    a != [] && b != [] &&
    if a[0] == b[0] then Straddles(a[1..], b[1..])
    else |a| > 1 && a[0] < b[0] && b[0][|a[0]|] < SLASH
  }

  lemma {:induction false} CommonStart(s: Bytes, x: Bytes, y: Bytes)
    ensures Lexicographic(s + x, s + y) <==> Lexicographic(x, y)
  {
    if s == [] {
      assert s + x == x && s + y == y;
    } else {
      assert (s + x)[1..] == s[1..] + x && (s + y)[1..] == s[1..] + y;
      CommonStart(s[1..], x, y);
    }
  }

  /** Where neither word begins the other, what follows them does not matter. */
  lemma {:induction false} DecidedWithin(s: Bytes, t: Bytes, x: Bytes, y: Bytes)
    requires !(s <= t) && !(t <= s)
    ensures Lexicographic(s + x, t + y) <==> Lexicographic(s, t)
  {
    assert s != [] && t != [];
    assert (s + x)[1..] == s[1..] + x && (t + y)[1..] == t[1..] + y;
    if s[0] == t[0] {
      assert s == [s[0]] + s[1..] && t == [t[0]] + t[1..];
      DecidedWithin(s[1..], t[1..], x, y);
    }
  }

  /** A slash, or nothing, against a byte that is no slash. */
  lemma SlashAgainstByte(x: Bytes, z: Bytes)
    requires z != [] && z[0] != SLASH && (x != [] ==> x[0] == SLASH)
    ensures Lexicographic(x, z) <==> x == [] || SLASH < z[0]
    ensures Lexicographic(z, x) <==> x != [] && z[0] < SLASH
  {
  }

  /** A component that begins another: what follows it stands against what is left of the longer. */
  lemma PrefixDecides(s: Bytes, t: Bytes, x: Bytes, y: Bytes)
    requires s < t && SLASH !in t && (x != [] ==> x[0] == SLASH)
    ensures Lexicographic(s, t) && !Lexicographic(t, s)
    ensures Lexicographic(s + x, t + y) <==> x == [] || SLASH < t[|s|]
    ensures Lexicographic(t + y, s + x) <==> x != [] && t[|s|] < SLASH
  {
    hide Lexicographic;
    var r, next := t[|s|..], t[|s|];
    assert next in t;
    assert t == s + r && t + y == s + (r + y) && s + [] == s;
    CommonStart(s, x, r + y);
    CommonStart(s, r + y, x);
    CommonStart(s, [], r);
    CommonStart(s, r, []);
    SlashAgainstByte(x, r + y);
    SlashAgainstByte([], r);
  }

  lemma EqualHeads(a: seq<Bytes>, b: seq<Bytes>)
    requires Proper(a) && Proper(b) && a != [] && b != [] && a[0] == b[0]
    ensures Lexicographic(Joined(a), Joined(b)) <==> Lexicographic(Joined(a[1..]), Joined(b[1..]))
    ensures Proper(a[1..]) && Proper(b[1..])
  {
    CommonStart(a[0], After(a), After(b));
    if |a| > 1 && |b| > 1 { CommonStart([SLASH], Joined(a[1..]), Joined(b[1..])); }
  }

  lemma UnequalHeads(a: seq<Bytes>, b: seq<Bytes>)
    requires Proper(a) && Proper(b) && a != [] && b != [] && a[0] != b[0]
    ensures (Lexicographic(a[0], b[0]) <==> Lexicographic(Joined(a), Joined(b))) <==>
        !Straddles(a, b) && !Straddles(b, a)
  {
    var s, t := a[0], b[0];
    if s <= t {
      PrefixDecides(s, t, After(a), After(b));
    } else if t <= s {
      PrefixDecides(t, s, After(b), After(a));
    } else {
      DecidedWithin(s, t, After(a), After(b));
    }
  }

  /** The two orders agree on a pair of paths exactly when neither straddles the other. */
  lemma {:induction false} OrdersAgreeExactly(a: seq<Bytes>, b: seq<Bytes>)
    requires Proper(a) && Proper(b)
    ensures (ByComponent(a, b) <==> Lexicographic(Joined(a), Joined(b))) <==> !Straddles(a, b) && !Straddles(b, a)
  {
    if a != [] && b != [] {
      if a[0] == b[0] {
        EqualHeads(a, b);
        OrdersAgreeExactly(a[1..], b[1..]);
      } else {
        UnequalHeads(a, b);
      }
    }
  }

  // --------------------------------------------------------------- whole bundles

  function NextSlash(p: Bytes): (k: nat)
    ensures k <= |p| && (k < |p| ==> p[k] == SLASH) && forall i :: 0 <= i < k ==> p[i] != SLASH
  {
    if p == [] || p[0] == SLASH then 0 else 1 + NextSlash(p[1..])
  }

  /** The components of a forward-slash path. */
  function Split(p: Bytes): (cs: seq<Bytes>)
    ensures cs != []
    decreases |p|
  {
    var k := NextSlash(p);
    if k == |p| then [p] else [p[..k]] + Split(p[k + 1..])
  }

  lemma JoinedHead(c: Bytes, rest: seq<Bytes>)
    requires rest != []
    ensures Joined([c] + rest) == c + ([SLASH] + Joined(rest))
  {
    assert ([c] + rest)[1..] == rest;
  }

  lemma SplitHead(p: Bytes, k: nat)
    requires k == NextSlash(p)
    ensures k == |p| ==> Joined(Split(p)) == p
    ensures k < |p| ==> Split(p) == [p[..k]] + Split(p[k + 1..])
  {
    hide NextSlash;
    if k == |p| { assert Split(p) == [p]; }
  }

  lemma CutAtSlash(p: Bytes, k: nat)
    requires k < |p| && p[k] == SLASH
    ensures p[..k] + ([SLASH] + p[k + 1..]) == p
  {
  }

  lemma {:induction false} SplitJoins(p: Bytes)
    ensures Joined(Split(p)) == p
    decreases |p|
  {
    hide Joined, Split, NextSlash;
    var k := NextSlash(p);
    SplitHead(p, k);
    if k < |p| {
      var rest := p[k + 1..];
      JoinedHead(p[..k], Split(rest));
      SplitJoins(rest);
      CutAtSlash(p, k);
    }
  }

  /** The order of path objects, on their forward-slash spellings. */
  predicate AsPaths(p: Bytes, q: Bytes) {
    ByComponent(Split(p), Split(q))
  }

  predicate AsText(p: Bytes, q: Bytes) {
    Lexicographic(p, q)
  }

  lemma {:induction false} TextIsTotal(a: Bytes, b: Bytes)
    ensures Lexicographic(a, b) || Lexicographic(b, a)
    ensures Lexicographic(a, b) && Lexicographic(b, a) ==> a == b
  {
    if a != [] && b != [] && a[0] == b[0] {
      TextIsTotal(a[1..], b[1..]);
      assert a == [a[0]] + a[1..] && b == [b[0]] + b[1..];
    }
  }

  lemma {:induction false} TextIsTransitive(a: Bytes, b: Bytes, c: Bytes)
    requires Lexicographic(a, b) && Lexicographic(b, c)
    ensures Lexicographic(a, c)
  {
    if a != [] && b != [] && c != [] && a[0] == b[0] == c[0] { TextIsTransitive(a[1..], b[1..], c[1..]); }
  }

  lemma TextOrder()
    ensures TotalOrder(AsText)
  {
    forall a, b
      ensures AsText(a, b) || AsText(b, a)
      ensures AsText(a, b) && AsText(b, a) ==> a == b
    {
      TextIsTotal(a, b);
    }
    forall a, b, c | AsText(a, b) && AsText(b, c) ensures AsText(a, c) { TextIsTransitive(a, b, c); }
  }

  /** Every path is of components that are not empty: no slash at either end, no two together. */
  ghost predicate Relative(files: Files) {
    forall p :: p in files ==> Proper(Split(p))
  }

  predicate PathsStraddle(p: Bytes, q: Bytes) {
    Straddles(Split(p), Split(q))
  }

  /** No file's path straddles another's. */
  ghost predicate NoneStraddle(files: Files) {
    forall p, q :: p in files && q in files ==> !PathsStraddle(p, q)
  }

  lemma SpellingsAgreeExactly(p: Bytes, q: Bytes)
    requires Proper(Split(p)) && Proper(Split(q))
    ensures (AsPaths(p, q) <==> AsText(p, q)) <==> !PathsStraddle(p, q) && !PathsStraddle(q, p)
  {
    SplitJoins(p);
    SplitJoins(q);
    OrdersAgreeExactly(Split(p), Split(q));
  }

  lemma SortedEitherWay(files: Files, a: seq<Entry>)
    requires Relative(files) && NoneStraddle(files) && Lists(files, AsPaths, a)
    ensures Lists(files, AsText, a)
  {
    hide AsPaths, AsText, PathsStraddle;
    forall i, j | 0 <= i < j < |a| ensures AsText(a[i].path, a[j].path) {
      assert AsPaths(a[i].path, a[j].path) && a[i].path in files && a[j].path in files;
      SpellingsAgreeExactly(a[i].path, a[j].path);
    }
  }

  /** A list sorted both ways has any two paths in the same order both ways. */
  lemma SortedBothWays(files: Files, a: seq<Entry>, p: Bytes, q: Bytes)
    requires Lists(files, AsPaths, a) && Lists(files, AsText, a) && p in files && q in files && p != q
    ensures (AsPaths(p, q) && AsText(p, q)) || (AsPaths(q, p) && AsText(q, p))
  {
    hide AsPaths, AsText;
    var listed, listed' := Listed(a, p), Listed(a, q);
    assert listed && listed';
    var i :| 0 <= i < |a| && a[i].path == p;
    var j :| 0 <= j < |a| && a[j].path == q;
    if i < j { assert AsPaths(p, q) && AsText(p, q); } else { assert AsPaths(q, p) && AsText(q, p); }
  }

  lemma StraddlingSortsApart(files: Files, a: seq<Entry>, p: Bytes, q: Bytes)
    requires Relative(files) && p in files && q in files && PathsStraddle(p, q)
    ensures !(Lists(files, AsPaths, a) && Lists(files, AsText, a))
  {
    SpellingsAgreeExactly(p, q);
    SpellingsAgreeExactly(q, p);
    NothingStraddlesItself(Split(p));
    assert p != q;
    if Lists(files, AsPaths, a) && Lists(files, AsText, a) { SortedBothWays(files, a, p, q); }
  }

  lemma {:induction false} NothingStraddlesItself(cs: seq<Bytes>)
    ensures !Straddles(cs, cs)
  {
    if cs != [] { NothingStraddlesItself(cs[1..]); }
  }

  /**
   The files of a bundle sorted as path objects, and as their spellings: for clean files the two
   streams are one exactly when no path straddles another. `x.yaml` beside `x/` is enough.
   */
  lemma OneStreamEitherWayExactly(files: Files, a: seq<Entry>, b: seq<Entry>)
    requires Relative(files) && Lists(files, AsPaths, a) && Lists(files, AsText, b) && Clean(a) && Clean(b)
    ensures Stream(a) == Stream(b) <==> NoneStraddle(files)
  {
    if NoneStraddle(files) {
      SortedEitherWay(files, a);
      TextOrder();
      ListingsAgree(files, AsText, a, b);
    } else if Stream(a) == Stream(b) {
      ParseRecovers(a);
      ParseRecovers(b);
      var p, q :| p in files && q in files && PathsStraddle(p, q);
      StraddlingSortsApart(files, a, p, q);
    }
  }

  /** `x.yaml` and `x/y`: a dot is below the slash. */
  lemma TheTwoOrdersDiffer()
    ensures var p, q := [[120], [121]], [[120, 46, 121]];
            && Straddles(p, q)
            && ByComponent(p, q) && !ByComponent(q, p)
            && Lexicographic(Joined(q), Joined(p)) && !Lexicographic(Joined(p), Joined(q))
  {
    var p, q := [[120], [121]], [[120, 46, 121]];
    assert Joined(p) == [120, 47, 121] && Joined(q) == [120, 46, 121];
    assert p[0][1..] == [] && q[0][1..] == [46, 121];
    assert Joined(p)[1..] == [47, 121] && Joined(q)[1..] == [46, 121];
  }
}
