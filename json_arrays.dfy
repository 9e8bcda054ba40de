/** The loop every list mapper runs: `for (i = 0; i < size; i++) add(create(list.getJSONObject(i)))`.
    On values it is `MapObjects`: element by element, left to right, each element must be
    an object and must map; the first failure ends the loop. */
module JsonArrays {
  import opened Wrappers
  import opened OrgJson

  /** The elements mapped by `f`, or the error of the first element that is not an
      object or does not map. */
  function MapObjects<T>(items: seq<Json>, f: Json -> Result<T>): (r: Result<seq<T>>)
    ensures r.Success? ==> |r.value| == |items|
  {
    if items == [] then Success([])
    else
      var init :- MapObjects(items[..|items| - 1], f);
      var obj :- ElementObject(items, |items| - 1);
      var t :- f(obj);
      Success(init + [t])
  }

  /** Success exactly when every element is an object that maps, and then element `i`
      of the result is the mapping of element `i`. */
  lemma {:induction false} MapObjectsSucceeds<T>(items: seq<Json>, f: Json -> Result<T>)
    ensures MapObjects(items, f).Success? <==> forall i :: 0 <= i < |items| ==> items[i].JObj? && f(items[i]).Success?
    ensures MapObjects(items, f).Success? ==>
      forall i :: 0 <= i < |items| ==> f(items[i]) == Success(MapObjects(items, f).value[i])
  {
    if items != [] {
      var init := items[..|items| - 1];
      MapObjectsSucceeds(init, f);
      assert forall i :: 0 <= i < |init| ==> init[i] == items[i];
    }
  }

  /** One more turn of the loop: element `i` is read and mapped after the prefix before it. */
  lemma MapObjectsStep<T>(items: seq<Json>, i: nat, f: Json -> Result<T>, done: seq<T>)
    requires i < |items| && MapObjects(items[..i], f) == Success(done)
    ensures MapObjects(items[..i + 1], f) ==
      (var obj :- ElementObject(items, i); var t :- f(obj); Success(done + [t]))
  {
    assert items[..i + 1][..i] == items[..i];
  }

  /** A failure at element `i` of a successful prefix is the failure of the whole loop:
      the elements after it are never looked at. */
  lemma {:induction false} MapObjectsStopsAt<T>(items: seq<Json>, i: nat, f: Json -> Result<T>, e: Error)
    requires i < |items| && MapObjects(items[..i], f).Success?
    requires MapObjects(items[..i + 1], f) == Failure(e)
    ensures MapObjects(items, f) == Failure(e)
    decreases |items| - i
  {
    if i + 1 == |items| {
      assert items[..i + 1] == items;
    } else {
      var longer := items[..|items| - 1];
      assert longer[..i] == items[..i] && longer[..i + 1] == items[..i + 1];
      MapObjectsStopsAt(longer, i, f, e);
    }
  }

  /** The loop itself, `list.add(create(array.getJSONObject(i)))` for i = 0, 1, ...,
      collecting the mapped elements and stopping at the first exception. */
  method MapEach<T>(items: seq<Json>, f: Json -> Result<T>) returns (r: Result<seq<T>>)
    ensures r == MapObjects(items, f)
  {
    var done: seq<T> := [];
    var i := 0;
    while i < |items|
      invariant 0 <= i <= |items|
      invariant MapObjects(items[..i], f) == Success(done)
    {
      MapObjectsStep(items, i, f, done);
      var obj := ElementObject(items, i);
      if obj.Failure? {
        MapObjectsStopsAt(items, i, f, obj.error);
        return Failure(obj.error);
      }
      var t := f(obj.value);
      if t.Failure? {
        MapObjectsStopsAt(items, i, f, t.error);
        return Failure(t.error);
      }
      done := done + [t.value];
      i := i + 1;
    }
    assert items[..i] == items;
    r := Success(done);
  }
}
