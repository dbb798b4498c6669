/** Listing the keys of a collection, as both project stores do for `get_projects`. */
module Listing {

  /** Every name of the set exactly once, in an unspecified order. */
  method ListNames(names: set<string>) returns (list: seq<string>)
    ensures |list| == |names|
    ensures forall n :: n in list <==> n in names
    ensures forall i, j :: 0 <= i < j < |list| ==> list[i] != list[j]
  {
    list := [];
    var rest := names;
    while rest != {}
      invariant rest <= names
      invariant forall n :: n in list <==> n in names && n !in rest
      invariant forall i, j :: 0 <= i < j < |list| ==> list[i] != list[j]
      invariant |list| + |rest| == |names|
      decreases |rest|
    {
      var n :| n in rest;
      list := list + [n];
      rest := rest - {n};
    }
  }
}
