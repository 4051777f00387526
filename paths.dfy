/**
  Go's `path.Join` and `path.Clean` for slash-separated paths. Clean is stated by its
  documented rules: repeated slashes collapse, `.` elements vanish, an inner `..`
  removes the element before it, a `..` at the start of a rooted path is dropped,
  and an empty result is `.`. The kept elements are an explicit stack.
*/
module Paths {

  predicate IsRooted(p: string) {
    |p| > 0 && p[0] == '/'
  }

  predicate EndsWith(s: string, suffix: string) {
    |suffix| <= |s| && s[|s| - |suffix|..] == suffix
  }

  /** An element that Clean can keep in its output. */
  predicate Kept(e: string) {
    e != "" && e != "." && '/' !in e
  }

  predicate AllKept(stack: seq<string>) {
    forall i | 0 <= i < |stack| :: Kept(stack[i])
  }

  /** Applies one path element to the stack of kept elements. */
  function Step(stack: seq<string>, elem: string, rooted: bool): seq<string> {
    if elem == "" || elem == "." then stack
    else if elem == ".." then
      if |stack| > 0 && stack[|stack| - 1] != ".." then stack[..|stack| - 1]
      else if rooted then stack
      else stack + [".."]
    else stack + [elem]
  }

  /** Reads `s` left to right; `cur` is the element read so far. */
  function Scan(s: string, cur: string, stack: seq<string>, rooted: bool): seq<string>
    decreases |s|
  {
    if s == [] then Step(stack, cur, rooted)
    else if s[0] == '/' then Scan(s[1..], "", Step(stack, cur, rooted), rooted)
    else Scan(s[1..], cur + [s[0]], stack, rooted)
  }

  /** The elements that Clean keeps of `p`, in order. */
  function Elements(p: string): seq<string> {
    Scan(p, "", [], IsRooted(p))
  }

  function JoinElements(elems: seq<string>): string {
    if elems == [] then ""
    else if |elems| == 1 then elems[0]
    else JoinElements(elems[..|elems| - 1]) + "/" + elems[|elems| - 1]
  }

  function Clean(p: string): string {
    var elems := Elements(p);
    if IsRooted(p) then "/" + JoinElements(elems)
    else if elems == [] then "."
    else JoinElements(elems)
  }

  /** `path.Join(a, b)`: the non-empty arguments joined by a slash, then cleaned. */
  function Join(a: string, b: string): string {
    if a == "" && b == "" then ""
    else Clean(if a == "" then b else a + "/" + b)
  }

  lemma StepKeeps(stack: seq<string>, elem: string, rooted: bool)
    requires AllKept(stack) && '/' !in elem
    ensures AllKept(Step(stack, elem, rooted))
  {
  }

  lemma {:induction false} ScanKeeps(s: string, cur: string, stack: seq<string>, rooted: bool)
    requires AllKept(stack) && '/' !in cur
    ensures AllKept(Scan(s, cur, stack, rooted))
    decreases |s|
  {
    StepKeeps(stack, cur, rooted);
    if s != [] {
      if s[0] == '/' {
        ScanKeeps(s[1..], "", Step(stack, cur, rooted), rooted);
      } else {
        ScanKeeps(s[1..], cur + [s[0]], stack, rooted);
      }
    }
  }

  /** A slash in the input ends the element being read: the scan resumes afresh after it. */
  lemma {:induction false} ScanAcrossSlash(a: string, b: string, cur: string, stack: seq<string>, rooted: bool)
    ensures Scan(a + "/" + b, cur, stack, rooted) == Scan(b, "", Scan(a, cur, stack, rooted), rooted)
    decreases |a|
  {
    var s := a + "/" + b;
    if a == [] {
      assert s[0] == '/' && s[1..] == b;
    } else {
      assert s[0] == a[0] && s[1..] == a[1..] + "/" + b;
      if a[0] == '/' {
        ScanAcrossSlash(a[1..], b, "", Step(stack, cur, rooted), rooted);
      } else {
        ScanAcrossSlash(a[1..], b, cur + [a[0]], stack, rooted);
      }
    }
  }

  /** Characters without a slash only extend the element being read. */
  lemma {:induction false} ScanWord(w: string, cur: string, stack: seq<string>, rooted: bool)
    requires '/' !in w
    ensures Scan(w, cur, stack, rooted) == Step(stack, cur + w, rooted)
    decreases |w|
  {
    if w == [] {
      assert cur + w == cur;
    } else {
      assert w[0] in w;
      assert '/' !in w[1..] by {
        forall i | 0 <= i < |w[1..]| ensures w[1..][i] != '/' {
          assert w[1..][i] == w[i + 1];
        }
      }
      ScanWord(w[1..], cur + [w[0]], stack, rooted);
      assert cur + [w[0]] + w[1..] == cur + w;
    }
  }

  /** The elements of `p + "//track"` are those of `p` followed by `track`. */
  lemma TrackElements(p: string, rooted: bool)
    ensures Scan(p + "/" + "/track", "", [], rooted) == Scan(p, "", [], rooted) + ["track"]
  {
    var stack := Scan(p, "", [], rooted);
    ScanAcrossSlash(p, "/track", "", [], rooted);
    assert ("/track")[0] == '/' && ("/track")[1..] == "track";
    assert Scan("/track", "", stack, rooted) == Scan("track", "", stack, rooted);
    ScanWord("track", "", stack, rooted);
    assert "" + "track" == "track";
  }

  lemma JoinElementsSnoc(elems: seq<string>, e: string)
    requires elems != []
    ensures JoinElements(elems + [e]) == JoinElements(elems) + "/" + e
  {
    assert (elems + [e])[..|elems|] == elems;
  }

  lemma JoinElementsShape(elems: seq<string>)
    requires elems != [] && AllKept(elems)
    ensures JoinElements(elems) != "" && JoinElements(elems) != "." && JoinElements(elems) != "/"
  {
    assert Kept(elems[|elems| - 1]);
    if |elems| == 1 {
      assert '/' in "/";
    } else {
      assert Kept(elems[..|elems| - 1][|elems| - 2]);
    }
  }

  /** Joining `/track` onto a non-empty path cleans the path's elements followed by `track`. */
  lemma JoinTrackElements(p: string)
    requires p != ""
    ensures Join(p, "/track") == (if IsRooted(p) then "/" else "") + JoinElements(Elements(p) + ["track"])
  {
    var buf := p + "/" + "/track";
    assert buf[0] == p[0];
    assert IsRooted(buf) == IsRooted(p);
    TrackElements(p, IsRooted(p));
  }

  /**
    Joining `/track` onto a path appends `/track` to the cleaned path, except that a
    path that cleans to `.` yields the relative `track` (unless it was empty) and the
    root yields `/track`.
  */
  lemma JoinTrack(p: string)
    ensures Join(p, "/track") ==
      if p == "" || Clean(p) == "/" then "/track"
      else if Clean(p) == "." then "track"
      else Clean(p) + "/track"
  {
    var elems := Elements(p);
    if p == "" {
      assert ("/track")[0] == '/' && ("/track")[1..] == "track";
      ScanWord("track", "", [], true);
      assert "" + "track" == "track";
    } else {
      JoinTrackElements(p);
      ScanKeeps(p, "", [], IsRooted(p));
      if elems == [] {
        assert JoinElements(elems + ["track"]) == "track";
      } else {
        JoinElementsSnoc(elems, "track");
        JoinElementsShape(elems);
      }
    }
  }

  /** Which paths give a tracking path ending in `/track`, in both directions. */
  lemma JoinTrackEndsWithTrack(p: string)
    ensures EndsWith(Join(p, "/track"), "/track") <==> (p == "" || Clean(p) != ".")
  {
    JoinTrack(p);
    var t := Join(p, "/track");
    if p != "" && Clean(p) == "." {
      assert t == "track";
      assert |t| < |"/track"|;
    } else if p == "" || Clean(p) == "/" {
      assert t == "/track";
    } else {
      assert t == Clean(p) + "/track";
      assert t[|t| - 6..] == "/track";
    }
  }

  /** A rooted path (every path of a URL with a host) cleans to a rooted path, never to `.`. */
  lemma RootedTrack(p: string)
    requires p == "" || IsRooted(p)
    ensures EndsWith(Join(p, "/track"), "/track")
  {
    JoinTrackEndsWithTrack(p);
  }

  /**
    A one-element rooted path keeps its element: `/landing` gives `/landing/track`,
    not `/track`.
  */
  lemma JoinRootedWord(w: string)
    requires Kept(w) && w != ".."
    ensures Join("/" + w, "/track") == "/" + w + "/track"
  {
    var p := "/" + w;
    assert p[0] == '/' && p[1..] == w;
    assert Scan(p, "", [], true) == Scan(w, "", [], true);
    ScanWord(w, "", [], true);
    assert "" + w == w;
    assert Elements(p) == [w];
    assert Clean(p) == p;
    JoinTrack(p);
  }

  /** A template path of `.` gives the relative tracking path `track`. */
  lemma JoinDot(p: string)
    requires p == "."
    ensures Join(p, "/track") == "track"
  {
    ScanWord(p, "", [], false);
    assert Elements(p) == [];
    JoinTrack(p);
  }
}
