/** How a topic string is cut into path components before it is decoded.
    The decoder sees a topic through a filesystem-path view: the string is
    split on '/', empty segments and interior "." segments are dropped, a
    leading '/' becomes a root component "/" and a leading "." (with no
    root) is kept as a current-directory component ".". Both of those
    leading components are never equal to "hermes", so such topics fail. */
module PathComponents {

  /** A segment that survives normalisation and can stand anywhere in a path:
      non-empty, not ".", and free of the separator. */
  predicate NormalComponent(s: string) {
    s != "" && s != "." && '/' !in s
  }

  /** The segments separated by '/'. */
  function Join(segs: seq<string>): string {
    if |segs| == 0 then ""
    else if |segs| == 1 then segs[0]
    else segs[0] + "/" + Join(segs[1..])
  }

  /** Splitting on '/', keeping empty segments: the unique list of
      separator-free strings whose join is `s`. */
  function Split(s: string): (r: seq<string>)
    ensures |r| >= 1
    ensures forall i :: 0 <= i < |r| ==> '/' !in r[i]
    ensures Join(r) == s
    ensures r[0] == "" <==> s == "" || s[0] == '/'
    decreases |s|
  {
    if |s| == 0 then [""]
    else
      var rest := Split(s[1..]);
      if s[0] == '/' then
        assert s == "" + "/" + Join(rest);
        [""] + rest
      else
        var r := [[s[0]] + rest[0]] + rest[1..];
        assert [s[0]] + rest[0] == s[..|rest[0]| + 1];
        assert Join(r) == s by {
          if |rest| > 1 {
            assert rest == [rest[0]] + rest[1..];
            assert Join(rest) == rest[0] + "/" + Join(rest[1..]);
          }
        }
        r
  }

  /** Splitting undoes joining, for lists of separator-free segments. */
  lemma {:induction false} SplitJoin(segs: seq<string>)
    requires |segs| >= 1
    requires forall i :: 0 <= i < |segs| ==> '/' !in segs[i]
    ensures Split(Join(segs)) == segs
    decreases |Join(segs)|
  {
    var s := Join(segs);
    if |segs[0]| == 0 {
      if |segs| > 1 {
        assert s == "/" + Join(segs[1..]);
        assert s[1..] == Join(segs[1..]);
        SplitJoin(segs[1..]);
      }
    } else {
      var tail := [segs[0][1..]] + segs[1..];
      assert tail[1..] == segs[1..];
      assert Join(tail) == s[1..] by {
        if |segs| > 1 {
          assert s == segs[0] + "/" + Join(segs[1..]);
        }
      }
      assert s[0] == segs[0][0];
      assert segs[0][0] != '/' by { assert segs[0][0] in segs[0]; }
      forall i | 0 <= i < |tail| ensures '/' !in tail[i] {
        if i == 0 {
          assert forall c :: c in segs[0][1..] ==> c in segs[0];
        }
      }
      SplitJoin(tail);
      assert [segs[0][0]] + tail[0] == segs[0];
      assert segs == [[segs[0][0]] + tail[0]] + tail[1..];
    }
  }

  /** Splitting `a + "/" + b` splits `a` and `b` independently. */
  lemma SplitSlash(a: string, b: string)
    ensures Split(a + "/" + b) == Split(a) + Split(b)
  {
    var segs := Split(a) + Split(b);
    JoinAppend(Split(a), Split(b));
    SplitJoin(segs);
  }

  /** Joining a concatenation puts one separator between the two joins. */
  lemma {:induction false} JoinAppend(x: seq<string>, y: seq<string>)
    requires |x| >= 1 && |y| >= 1
    ensures Join(x + y) == Join(x) + "/" + Join(y)
  {
    if |x| > 1 {
      assert (x + y)[1..] == x[1..] + y;
      JoinAppend(x[1..], y);
    } else {
      assert (x + y)[1..] == y;
    }
  }

  /** Drops the segments a path does not keep: empty ones and ".". */
  function Normalize(segs: seq<string>): (r: seq<string>)
    ensures |r| <= |segs|
    ensures forall i :: 0 <= i < |r| ==> r[i] != "" && r[i] != "."
    ensures forall s :: s in r <==> s in segs && s != "" && s != "."
  {
    if |segs| == 0 then []
    else if segs[0] == "" || segs[0] == "." then Normalize(segs[1..])
    else [segs[0]] + Normalize(segs[1..])
  }

  /** Normalisation works segment by segment. */
  lemma {:induction false} NormalizeAppend(x: seq<string>, y: seq<string>)
    ensures Normalize(x + y) == Normalize(x) + Normalize(y)
  {
    if |x| > 0 {
      assert (x + y)[1..] == x[1..] + y;
      NormalizeAppend(x[1..], y);
    } else {
      assert x + y == y;
    }
  }

  /** Normalisation keeps a list that holds no empty and no "." segment. */
  lemma {:induction false} NormalizeKeeps(segs: seq<string>)
    requires forall i :: 0 <= i < |segs| ==> segs[i] != "" && segs[i] != "."
    ensures Normalize(segs) == segs
  {
    if |segs| > 0 {
      NormalizeKeeps(segs[1..]);
    }
  }

  /** The component a path starts with before its normal components: the
      root for an absolute path, "." for a path that starts with "./". */
  function Head(p: string): (r: seq<string>)
    ensures |r| <= 1
    ensures r == ["/"] <==> |p| > 0 && p[0] == '/'
    ensures r == ["."] <==> !(|p| > 0 && p[0] == '/') && Split(p)[0] == "."
    ensures r == [] <==> !(|p| > 0 && p[0] == '/') && Split(p)[0] != "."
  {
    if |p| > 0 && p[0] == '/' then ["/"]
    else if Split(p)[0] == "." then ["."]
    else []
  }

  /** The components of a path: at most one root or current-directory
      component, then every non-empty, non-"." segment in order. */
  function Components(p: string): (r: seq<string>)
    ensures forall i :: 0 <= i < |r| ==>
      NormalComponent(r[i]) || (i == 0 && (r[i] == "/" || r[i] == "."))
    ensures |r| > 0 && r[0] == "/" <==> |p| > 0 && p[0] == '/'
  {
    var r := Head(p) + Normalize(Split(p));
    assert forall i :: 0 <= i < |Normalize(Split(p))| ==> '/' !in Normalize(Split(p))[i] by {
      forall i | 0 <= i < |Normalize(Split(p))|
        ensures '/' !in Normalize(Split(p))[i]
      {
        var s := Normalize(Split(p))[i];
        assert s in Split(p);
      }
    }
    r
  }

  /** A path whose first two components exist and the first is `w` (a normal
      component) begins with `w` and a separator. */
  lemma LeadingComponent(p: string, w: string)
    requires NormalComponent(w)
    requires |Components(p)| >= 2 && Components(p)[0] == w
    ensures |p| > |w| && p[..|w| + 1] == w + "/"
  {
    var segs := Split(p);
    assert Components(p) == Head(p) + Normalize(segs);
    assert Head(p) == [];
    assert |p| > 0;
    assert segs[0] != "" && segs[0] != ".";
    assert Normalize(segs) == [segs[0]] + Normalize(segs[1..]);
    assert segs[0] == w;
    assert |Normalize(segs[1..])| >= 1;
    assert |segs| >= 2;
    assert p == w + "/" + Join(segs[1..]);
  }
}
