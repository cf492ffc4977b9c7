/** The client record of src/app/Model/client.model.ts. */
module ClientModel {
  import opened Wrappers

  /** `'Active' | 'Pending' | 'Inactive'`. */
  datatype Status = Active | Pending | Inactive

  /** One stored address: its fields by name (id, street, number, paraje, ...). */
  type Address = map<string, string>

  /**
   * The `addresses: any` attribute as the components meet it.
   * - `Falsy`: `undefined`, `null`, `0`, `''` or `false`;
   * - `Primitive`: any other non-object value (a non-zero number, a non-empty string, `true`);
   * - `List`: an array;
   * - `Keyed`: a non-array object, its (key, value) entries listed in the order
   *   `Object.values` enumerates them. The store keeps addresses this way.
   */
  datatype AddressField =
    | Falsy
    | Primitive
    | List(items: seq<Address>)
    | Keyed(entries: seq<(string, Address)>)

  /** The keys of an object are distinct. */
  ghost predicate DistinctKeys(entries: seq<(string, Address)>) {
    forall i, j :: 0 <= i < j < |entries| ==> entries[i].0 != entries[j].0
  }

  /** The object as a map from key to value. */
  function AsMap(entries: seq<(string, Address)>): map<string, Address>
    decreases |entries|
  {
    if entries == [] then map[]
    else AsMap(entries[..|entries| - 1])[entries[|entries| - 1].0 := entries[|entries| - 1].1]
  }

  /** `Object.values(obj)`. */
  function Values(entries: seq<(string, Address)>): (r: seq<Address>)
    ensures |r| == |entries|
    ensures forall i :: 0 <= i < |entries| ==> r[i] == entries[i].1
  {
    seq(|entries|, i requires 0 <= i < |entries| => entries[i].1)
  }

  /**
   * `Object.values` lists exactly the object's values: one element per key,
   * and each key's value among them.
   */
  lemma ValuesOfObject(entries: seq<(string, Address)>)
    requires DistinctKeys(entries)
    ensures |Values(entries)| == |AsMap(entries).Keys|
    ensures forall k :: k in AsMap(entries) ==> AsMap(entries)[k] in Values(entries)
    ensures forall v :: v in Values(entries) ==> v in AsMap(entries).Values
  {
    ValuesCount(entries);
    ValuesCoverKeys(entries);
    ValuesAreStored(entries);
  }

  lemma {:induction false} ValuesCount(entries: seq<(string, Address)>)
    requires DistinctKeys(entries)
    ensures |Values(entries)| == |AsMap(entries).Keys|
    decreases |entries|
  {
    if entries != [] {
      var n := |entries| - 1;
      var init := entries[..n];
      var last := entries[n];
      assert DistinctKeys(init);
      ValuesCount(init);
      assert last.0 !in AsMap(init) by {
        KeysOfObject(init);
      }
      assert AsMap(entries).Keys == AsMap(init).Keys + {last.0};
    }
  }

  lemma {:induction false} ValuesCoverKeys(entries: seq<(string, Address)>)
    ensures forall k :: k in AsMap(entries) ==> AsMap(entries)[k] in Values(entries)
    decreases |entries|
  {
    if entries != [] {
      var n := |entries| - 1;
      var init := entries[..n];
      var last := entries[n];
      ValuesCoverKeys(init);
      assert Values(entries) == Values(init) + [last.1];
    }
  }

  lemma {:induction false} ValuesAreStored(entries: seq<(string, Address)>)
    requires DistinctKeys(entries)
    ensures forall v :: v in Values(entries) ==> v in AsMap(entries).Values
    decreases |entries|
  {
    if entries != [] {
      var n := |entries| - 1;
      var init := entries[..n];
      var last := entries[n];
      assert DistinctKeys(init);
      ValuesAreStored(init);
      assert last.0 !in AsMap(init) by {
        KeysOfObject(init);
      }
      assert Values(entries) == Values(init) + [last.1];
      forall v | v in Values(init)
        ensures v in AsMap(entries).Values
      {
        var k :| k in AsMap(init) && AsMap(init)[k] == v;
        assert AsMap(entries)[k] == v;
      }
      assert AsMap(entries)[last.0] == last.1;
    }
  }

  lemma {:induction false} KeysOfObject(entries: seq<(string, Address)>)
    ensures forall k :: k in AsMap(entries) <==> exists i :: 0 <= i < |entries| && entries[i].0 == k
    decreases |entries|
  {
    if entries != [] {
      KeysOfObject(entries[..|entries| - 1]);
    }
  }

  /**
   * The `Client` record. `imageUrl` is optional in `IClient`; a record built
   * by the constructor always carries it.
   */
  datatype Client = Client(
    addresses: AddressField,
    id: string,
    clientName: string,
    rnc: string,
    status: Status,
    phone: string,
    email: string,
    enterpriseName: string,
    imageUrl: Option<string>)

  /**
   * `new Client(...)`: every argument is stored as given except `mode`, which
   * is accepted and dropped. The defaults are those of the source
   * (`addresses = 0`, which is falsy).
   */
  function NewClient(addresses: AddressField := Falsy, id: string := "", clientName: string := "",
                     rnc: string := "", mode: string := "", status: Status := Active,
                     phone: string := "", email: string := "", enterpriseName: string := "",
                     imageUrl: string := ""): (c: Client)
    ensures c.addresses == addresses && c.id == id && c.clientName == clientName && c.rnc == rnc
    ensures c.status == status && c.phone == phone && c.email == email
    ensures c.enterpriseName == enterpriseName && c.imageUrl == Some(imageUrl)
  {
    Client(addresses, id, clientName, rnc, status, phone, email, enterpriseName, Some(imageUrl))
  }

  /** The `mode` argument has no effect on the record built. */
  lemma ModeIsIgnored(addresses: AddressField, id: string, clientName: string, rnc: string,
                      m1: string, m2: string, status: Status, phone: string, email: string,
                      enterpriseName: string, imageUrl: string)
    ensures NewClient(addresses, id, clientName, rnc, m1, status, phone, email, enterpriseName, imageUrl)
         == NewClient(addresses, id, clientName, rnc, m2, status, phone, email, enterpriseName, imageUrl)
  {
  }

  /** The all-defaults record. */
  lemma DefaultClient()
    ensures NewClient() == Client(Falsy, "", "", "", Active, "", "", "", Some(""))
  {
  }
}
