/**
 * The client list view of
 * src/app/manage/client-control/client-control.component.ts: it loads the
 * `clients` collection, normalises each record's addresses to a list and
 * offers a case-insensitive search over name and id.
 */
module ClientControl {
  import opened Wrappers
  import opened Text
  import opened ClientModel
  import opened Services
  import Constants

  /** The list view's rule for one `addresses` attribute. */
  function ListedAddresses(a: AddressField): AddressField {
    match a
    case Keyed(entries) => List(Values(entries))
    case Falsy => List([])
    case _ => a
  }

  /**
   * `transformClients`: the same records in the same order, each with a
   * non-array object `addresses` replaced by its values and a falsy one by
   * `[]`; an array (or any other truthy non-object) is kept, and no other
   * field is touched.
   */
  function TransformClients(data: seq<Client>): (r: seq<Client>)
    ensures |r| == |data|
    ensures forall i :: 0 <= i < |data| ==> r[i].(addresses := data[i].addresses) == data[i]
    ensures forall i :: 0 <= i < |data| && data[i].addresses.Keyed? ==>
      r[i].addresses == List(Values(data[i].addresses.entries))
    ensures forall i :: 0 <= i < |data| && data[i].addresses.Falsy? ==> r[i].addresses == List([])
    ensures forall i :: 0 <= i < |data| && (data[i].addresses.List? || data[i].addresses.Primitive?) ==>
      r[i] == data[i]
  {
    seq(|data|, i requires 0 <= i < |data| => data[i].(addresses := ListedAddresses(data[i].addresses)))
  }

  /** After the list view's normalisation every record's addresses is an array. */
  lemma ListedAddressesAreArrays(data: seq<Client>)
    requires forall i :: 0 <= i < |data| ==> !data[i].addresses.Primitive?
    ensures forall c :: c in TransformClients(data) ==> c.addresses.List?
  {
    var r := TransformClients(data);
    forall c | c in r
      ensures c.addresses.List?
    {
      var i :| 0 <= i < |r| && r[i] == c;
      assert data[i].addresses.Keyed? || data[i].addresses.Falsy? || data[i].addresses.List?;
    }
  }

  /** Normalising an already normalised list changes nothing. */
  lemma TransformClientsIdempotent(data: seq<Client>)
    ensures TransformClients(TransformClients(data)) == TransformClients(data)
  {
  }

  // ---- search ----

  /** A client matches a (lower-cased) term by its lower-cased name or id. */
  predicate Matches(c: Client, term: string) {
    Includes(ToLower(c.clientName), term) || Includes(ToLower(c.id), term)
  }

  /**
   * `clients.filter(matches)`: every matching record is kept as often as it
   * occurs and no other record is; `FilterIsSubsequence` adds the order.
   */
  function FilterClients(cs: seq<Client>, term: string): (r: seq<Client>)
    ensures |r| <= |cs|
    ensures forall c :: c in r <==> c in cs && Matches(c, term)
    ensures forall c :: multiset(r)[c] == if Matches(c, term) then multiset(cs)[c] else 0
  {
    if cs == [] then []
    else
      assert cs == [cs[0]] + cs[1..];
      (if Matches(cs[0], term) then [cs[0]] else []) + FilterClients(cs[1..], term)
  }

  /** `a` is `b` with some elements left out, the rest in their order. */
  ghost predicate IsSubsequence(a: seq<Client>, b: seq<Client>)
    decreases |b|
  {
    a == [] || (b != [] && ((a[0] == b[0] && IsSubsequence(a[1..], b[1..])) || IsSubsequence(a, b[1..])))
  }

  /** The filter keeps the clients' original order. */
  lemma {:induction false} FilterIsSubsequence(cs: seq<Client>, term: string)
    ensures IsSubsequence(FilterClients(cs, term), cs)
  {
    if cs != [] {
      FilterIsSubsequence(cs[1..], term);
      var r := FilterClients(cs, term);
      if Matches(cs[0], term) {
        assert r[0] == cs[0] && r[1..] == FilterClients(cs[1..], term);
      } else {
        assert r == FilterClients(cs[1..], term);
        assert r == [] || IsSubsequence(r, cs[1..]);
      }
    }
  }

  /**
   * The filter distributes over concatenation; with the one-element case
   * this pins the result down: the matching clients, in their order.
   */
  lemma {:induction false} FilterAppend(a: seq<Client>, b: seq<Client>, term: string)
    ensures FilterClients(a + b, term) == FilterClients(a, term) + FilterClients(b, term)
  {
    if a == [] {
      assert a + b == b;
    } else {
      assert (a + b)[1..] == a[1..] + b;
      FilterAppend(a[1..], b, term);
    }
  }

  lemma FilterSingleton(c: Client, term: string)
    ensures FilterClients([c], term) == if Matches(c, term) then [c] else []
  {
    assert [c][1..] == [];
  }

  /** The empty term is found in every name. */
  lemma EmptyTermMatchesAll(cs: seq<Client>)
    ensures FilterClients(cs, "") == cs
  {
    forall c: Client ensures Matches(c, "") {
      assert StartsWith(ToLower(c.clientName), "");
    }
    if cs != [] {
      EmptyTermMatchesAll(cs[1..]);
    }
  }

  /** `trackByClientId`: the row identity is the client's id. */
  function TrackByClientId(index: int, client: Client): (r: string)
    ensures r == client.id
  {
    client.id
  }

  // ---- the component ----

  class ClientControlComponent {
    var clients: seq<Client>
    var isLoading: bool
    /** `searchControl.value`: `null` once the control is reset. */
    var searchValue: Option<string>
    var requests: seq<Request>

    constructor ()
      ensures clients == [] && !isLoading && searchValue == Some("") && requests == []
    {
      clients := [];
      isLoading := false;
      searchValue := Some("");
      requests := [];
    }

    /** `loadClients` (run by `ngOnInit`): flag loading and subscribe to `clients`. */
    method LoadClients()
      modifies this
      ensures isLoading
      ensures requests == old(requests) + [ListAt(Constants.Clients)]
      ensures clients == old(clients) && searchValue == old(searchValue)
    {
      isLoading := true;
      requests := requests + [ListAt(Constants.Clients)];
    }

    /** A batch from the `clients` subscription replaces the list. */
    method OnClientsData(data: seq<Client>)
      modifies this
      ensures clients == TransformClients(data) && !isLoading
      ensures requests == old(requests) && searchValue == old(searchValue)
    {
      clients := TransformClients(data);
      isLoading := false;
    }

    /** A failed subscription keeps the last list and clears the flag. */
    method OnClientsError()
      modifies this
      ensures clients == old(clients) && !isLoading
      ensures requests == old(requests) && searchValue == old(searchValue)
    {
      isLoading := false;
    }

    /** The user edits (or resets) the search box. */
    method SetSearch(value: Option<string>)
      modifies this
      ensures searchValue == value
      ensures clients == old(clients) && isLoading == old(isLoading) && requests == old(requests)
    {
      searchValue := value;
    }

    /** `(searchControl.value || '').toLowerCase()`. */
    function SearchTerm(): (r: string)
      reads this
      ensures searchValue.None? ==> r == ""
      ensures searchValue.Some? ==>
        |r| == |searchValue.value| && forall i :: 0 <= i < |r| ==> r[i] == LowerChar(searchValue.value[i])
    {
      ToLower(searchValue.GetOr(""))
    }

    /**
     * `getFilteredClients`: a blank term (empty or only whitespace) gives the
     * whole list; otherwise the clients whose lower-cased name or id contains
     * the lower-cased, untrimmed term, each as often as it is listed, in
     * their order.
     */
    function GetFilteredClients(): (r: seq<Client>)
      reads this
      ensures IsBlank(SearchTerm()) ==> r == clients
      ensures !IsBlank(SearchTerm()) ==>
        (forall c :: c in r <==> c in clients && Matches(c, SearchTerm()))
        && (forall c :: multiset(r)[c] == if Matches(c, SearchTerm()) then multiset(clients)[c] else 0)
        && IsSubsequence(r, clients)
    {
      var term := SearchTerm();
      if IsBlank(term) then clients
      else
        FilterIsSubsequence(clients, term);
        FilterClients(clients, term)
    }
  }
}
