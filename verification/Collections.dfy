/** Facts about built-in collections. */
module Collections {
  lemma Associates<T>(x: seq<T>, y: seq<T>, z: seq<T>)
    ensures (x + y) + z == x + (y + z)
  {
  }

  lemma {:induction false} SubsetSize<T>(s: set<T>, t: set<T>)
    requires s <= t
    ensures |s| <= |t| && (|s| == |t| ==> s == t)
  {
    if s != {} {
      var x :| x in s;
      SubsetSize(s - {x}, t - {x});
      assert t == (t - {x}) + {x} && s == (s - {x}) + {x};
    } else if t != {} {
      assert |t| > 0;
    }
  }
}
