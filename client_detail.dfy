/**
 * The client detail view of src/app/manage/client/client.component.ts: it
 * loads one client named by the route, normalises its addresses, and
 * deletes the client or one of its addresses.
 */
module ClientDetail {
  import opened Wrappers
  import opened ClientModel
  import opened Services
  import opened Constants
  import ClientControl

  /** The detail view's rule: only a non-array object is replaced by its values. */
  function DetailAddresses(a: AddressField): AddressField {
    if a.Keyed? then List(Values(a.entries)) else a
  }

  /**
   * `transformAddresses`: a non-array object `addresses` becomes the list of
   * its values; an array, a falsy value or any other value is left as it is
   * (there is no `[]` default), and no other field changes.
   */
  function TransformAddresses(c: Client): (r: Client)
    ensures r.(addresses := c.addresses) == c
    ensures c.addresses.Keyed? ==> r.addresses == List(Values(c.addresses.entries))
    ensures !c.addresses.Keyed? ==> r == c
  {
    c.(addresses := DetailAddresses(c.addresses))
  }

  /**
   * The list and detail views normalise a record identically except when
   * its addresses are falsy: the list view then substitutes `[]`.
   */
  lemma ListAndDetailDiffer(c: Client)
    ensures ClientControl.TransformClients([c])[0] == TransformAddresses(c) <==> !c.addresses.Falsy?
    ensures c.addresses.Falsy? ==> TransformAddresses(c).addresses == Falsy
  {
    var listed := ClientControl.TransformClients([c])[0];
    if c.addresses.Falsy? {
      assert listed.addresses == List([]);
    }
  }

  class ClientComponent {
    /** `activatedRoute.snapshot.params['id']`. */
    const routeId: Option<string>
    var client: Option<Client>
    var isLoading: bool
    var requests: seq<Request>
    var alerts: seq<Alert>

    constructor (routeId: Option<string>)
      ensures this.routeId == routeId
      ensures client == None && !isLoading && requests == [] && alerts == []
    {
      this.routeId := routeId;
      client := None;
      isLoading := false;
      requests := [];
      alerts := [];
    }

    /** `getClientId`: the route id, or `""` when it is missing. */
    function GetClientId(): (r: string)
      ensures routeId.None? ==> r == ""
      ensures routeId.Some? ==> r == routeId.value
    {
      ParamOrEmpty(routeId)
    }

    /**
     * `loadClient` (also run by `ngOnInit`): with no id, one error alert and
     * nothing else; otherwise flag loading and subscribe to the client's path.
     */
    method LoadClient()
      modifies this
      ensures GetClientId() == "" ==>
        alerts == old(alerts) + [ErrorAlert("No se encontró el ID del cliente")]
        && requests == old(requests) && isLoading == old(isLoading)
      ensures GetClientId() != "" ==>
        isLoading && requests == old(requests) + [ObjectAt(ClientById(GetClientId()))]
        && alerts == old(alerts)
      ensures client == old(client)
    {
      var id := GetClientId();
      if id == "" {
        alerts := alerts + [ErrorAlert("No se encontró el ID del cliente")];
        return;
      }
      isLoading := true;
      requests := requests + [ObjectAt(ClientById(id))];
    }

    /** A value from the client subscription becomes the shown record. */
    method OnClientData(data: Client)
      modifies this
      ensures client == Some(TransformAddresses(data)) && !isLoading
      ensures requests == old(requests) && alerts == old(alerts)
    {
      client := Some(TransformAddresses(data));
      isLoading := false;
    }

    /** A failed subscription keeps the record shown, alerts and clears the flag. */
    method OnClientError()
      modifies this
      ensures client == old(client) && !isLoading
      ensures alerts == old(alerts) + [ErrorAlert(GenericError)] && requests == old(requests)
    {
      alerts := alerts + [ErrorAlert(GenericError)];
      isLoading := false;
    }

    /** `deleteClient`: with no id nothing happens; otherwise remove exactly `clients/{id}`. */
    method DeleteClient()
      modifies this
      ensures GetClientId() == "" ==> requests == old(requests)
      ensures GetClientId() != "" ==> requests == old(requests) + [RemoveAt(ClientById(GetClientId()))]
      ensures client == old(client) && isLoading == old(isLoading) && alerts == old(alerts)
    {
      var id := GetClientId();
      if id == "" {
        return;
      }
      requests := requests + [RemoveAt(ClientById(id))];
    }

    /** Completion of `deleteClient`'s removal. */
    method OnDeleteClientDone(outcome: Outcome)
      modifies this
      ensures outcome == Succeeded ==> alerts == old(alerts) + [SuccessBackAlert(ClientDeleted)]
      ensures outcome == Failed ==> alerts == old(alerts) + [ErrorAlert(GenericError)]
      ensures client == old(client) && isLoading == old(isLoading) && requests == old(requests)
    {
      if outcome == Succeeded {
        alerts := alerts + [SuccessBackAlert(ClientDeleted)];
      } else {
        alerts := alerts + [ErrorAlert(GenericError)];
      }
    }

    /** `deleteAddress`: remove exactly `clients/{clientId}/addresses/{addressId}`. */
    method DeleteAddress(clientId: string, addressId: string)
      modifies this
      ensures requests == old(requests) + [RemoveAt(ClientAddress(clientId, addressId))]
      ensures client == old(client) && isLoading == old(isLoading) && alerts == old(alerts)
    {
      requests := requests + [RemoveAt(ClientAddress(clientId, addressId))];
    }

    /**
     * Completion of `deleteAddress`'s removal: success confirms and reloads
     * the client named by the route (not the `clientId` argument); failure
     * alerts and does not reload.
     */
    method OnDeleteAddressDone(outcome: Outcome)
      modifies this
      ensures outcome == Failed ==>
        alerts == old(alerts) + [ErrorAlert(GenericError)]
        && requests == old(requests) && isLoading == old(isLoading)
      ensures outcome == Succeeded && GetClientId() != "" ==>
        alerts == old(alerts) + [SuccessAlert(AddressDeleted)]
        && requests == old(requests) + [ObjectAt(ClientById(GetClientId()))] && isLoading
      ensures outcome == Succeeded && GetClientId() == "" ==>
        alerts == old(alerts) + [SuccessAlert(AddressDeleted), ErrorAlert("No se encontró el ID del cliente")]
        && requests == old(requests) && isLoading == old(isLoading)
      ensures client == old(client)
    {
      if outcome == Succeeded {
        alerts := alerts + [SuccessAlert(AddressDeleted)];
        LoadClient();
      } else {
        alerts := alerts + [ErrorAlert(GenericError)];
      }
    }
  }
}
