/** The set of subscribers behind the broker. */
module SetDatatype {

  class Set<T(==)> {
    var items: set<T>

    constructor ()
      ensures items == {}
    {
      items := {};
    }

    method Add(item: T)
      modifies this
      ensures items == old(items) + {item}
    {
      items := items + {item};
    }

    method Remove(item: T)
      modifies this
      ensures items == old(items) - {item}
    {
      items := items - {item};
    }

    /** The members, each once, in no particular order. */
    method Values() returns (values: seq<T>)
      ensures forall x :: x in values <==> x in items
      ensures forall i, j :: 0 <= i < j < |values| ==> values[i] != values[j]
    {
      values := [];
      var rest := items;
      while rest != {}
        invariant rest <= items
        invariant forall x :: x in values <==> x in items - rest
        invariant forall i, j :: 0 <= i < j < |values| ==> values[i] != values[j]
        decreases |rest|
      {
        var x :| x in rest;
        assert x !in values;
        values := values + [x];
        rest := rest - {x};
      }
    }
  }
}
