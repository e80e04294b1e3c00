/** Name lookup by linear scan, shared by the `Get` operations of actions,
    alerts and ingest tokens: list everything, return the first element
    whose name matches, else a not-found error. */
module Lookup {
  import opened Values

  /** Index of the first element of `items` whose name is `name`. */
  function FirstIndex<T>(items: seq<T>, nameOf: T -> string, name: string): (r: Option<nat>)
    ensures r.Some? ==> r.value < |items| && nameOf(items[r.value]) == name
    ensures r.Some? ==> forall j :: 0 <= j < r.value ==> nameOf(items[j]) != name
    ensures r.None? <==> forall j :: 0 <= j < |items| ==> nameOf(items[j]) != name
  {
    if |items| == 0 then None
    else if nameOf(items[0]) == name then Some(0)
    else
      match FirstIndex(items[1..], nameOf, name)
      case None => None
      case Some(k) => Some(k + 1)
  }

  /** The first element named `name`, or `NotFound(kind, name)`. */
  function FirstNamed<T>(items: seq<T>, nameOf: T -> string, kind: string, name: string): (r: Result<T>)
    ensures r.Ok? ==> nameOf(r.value) == name
    ensures r.Ok? ==> exists k :: 0 <= k < |items| && items[k] == r.value
                                 && forall j :: 0 <= j < k ==> nameOf(items[j]) != name
    ensures r.Err? <==> forall j :: 0 <= j < |items| ==> nameOf(items[j]) != name
    ensures r.Err? ==> r.error == NotFound(kind, name)
  {
    match FirstIndex(items, nameOf, name)
    case Some(k) => Ok(items[k])
    case None => Err(NotFound(kind, name))
  }

  /** The scan loop with its early return. */
  method FindByName<T>(items: seq<T>, nameOf: T -> string, kind: string, name: string)
    returns (r: Result<T>)
    ensures r == FirstNamed(items, nameOf, kind, name)
  {
    for i := 0 to |items|
      invariant forall j :: 0 <= j < i ==> nameOf(items[j]) != name
    {
      if nameOf(items[i]) == name {
        return Ok(items[i]);
      }
    }
    return Err(NotFound(kind, name));
  }
}
