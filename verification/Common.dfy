/** Small vocabulary shared by the models of the agent's components. */
module Common {
  datatype Option<+T> = None | Some(value: T)

  /** Durations and times are in nanoseconds. */
  const SECOND: nat := 1000000000

  function Min(a: int, b: int): int {
    if a <= b then a else b
  }

  function Flatten<T>(xss: seq<seq<T>>): seq<T> {
    if xss == [] then [] else xss[0] + Flatten(xss[1..])
  }

  lemma {:induction false} FlattenConcat<T>(xss: seq<seq<T>>, yss: seq<seq<T>>)
    ensures Flatten(xss + yss) == Flatten(xss) + Flatten(yss)
  {
    if xss == [] {
      assert xss + yss == yss;
    } else {
      FlattenConcat(xss[1..], yss);
      assert (xss + yss)[1..] == xss[1..] + yss;
    }
  }

  lemma FlattenOne<T>(xs: seq<T>)
    ensures Flatten([xs]) == xs
  {
    assert Flatten<T>([]) == [];
  }

  lemma FlattenSnoc<T>(xss: seq<seq<T>>, xs: seq<T>)
    ensures Flatten(xss + [xs]) == Flatten(xss) + xs
  {
    FlattenConcat(xss, [xs]);
    FlattenOne(xs);
  }
}
