/**
 * The store path builders (`DB_PATHS`) and the alert texts (`ALERT_MESSAGES`)
 * of src/app/utils/constants.ts.
 */
module Constants {
  import opened Text

  // ---- DB_PATHS ----

  const Clients: string := "clients"

  /** `CLIENT_BY_ID(id)`: the path of one client record. */
  function ClientById(id: string): (p: string)
    ensures StartsWith(p, Clients + "/") && p[|Clients| + 1..] == id
  {
    "clients/" + id
  }

  /** `CLIENT_ADDRESSES(id)`: the collection of a client's addresses. */
  function ClientAddresses(id: string): (p: string)
    ensures p == ClientById(id) + "/addresses"
  {
    "clients/" + id + "/addresses"
  }

  /** `CLIENT_ADDRESS(clientId, addressId)`: one address of one client. */
  function ClientAddress(clientId: string, addressId: string): (p: string)
    ensures p == ClientAddresses(clientId) + "/" + addressId
  {
    "clients/" + clientId + "/addresses/" + addressId
  }

  /** A client's path is a proper prefix of each of its address paths. */
  lemma ClientPathCoversAddresses(clientId: string, addressId: string)
    ensures StartsWith(ClientAddress(clientId, addressId), ClientById(clientId) + "/")
    ensures |ClientById(clientId)| < |ClientAddress(clientId, addressId)|
  {
    var p := ClientAddress(clientId, addressId);
    assert p == (ClientById(clientId) + "/") + ("addresses/" + addressId);
  }

  /** Distinct client ids give distinct client paths. */
  lemma ClientByIdInjective(a: string, b: string)
    ensures ClientById(a) == ClientById(b) ==> a == b
  {
  }

  /**
   * As long as client ids hold no `/`, an address path names exactly one
   * client and one address.
   */
  lemma ClientAddressInjective(c1: string, a1: string, c2: string, a2: string)
    requires forall i :: 0 <= i < |c1| ==> c1[i] != '/'
    requires forall i :: 0 <= i < |c2| ==> c2[i] != '/'
    ensures ClientAddress(c1, a1) == ClientAddress(c2, a2) ==> c1 == c2 && a1 == a2
  {
    var p1, p2 := ClientAddress(c1, a1), ClientAddress(c2, a2);
    if p1 == p2 {
      assert p1 == "clients/" + c1 + "/addresses/" + a1;
      assert p2 == "clients/" + c2 + "/addresses/" + a2;
      FirstSlashAfterClients(c1, a1);
      FirstSlashAfterClients(c2, a2);
      assert |c1| == |c2|;
      assert c1 == p1[8..8 + |c1|] == p2[8..8 + |c2|] == c2;
      var k := 8 + |c1| + 11;
      assert a1 == p1[k..] == p2[k..] == a2;
    }
  }

  /** In an address path, the first `/` after `clients/` ends the client id. */
  lemma FirstSlashAfterClients(c: string, a: string)
    requires forall i :: 0 <= i < |c| ==> c[i] != '/'
    ensures var p := ClientAddress(c, a);
      |p| > 8 + |c| && p[8 + |c|] == '/' && forall i :: 8 <= i < 8 + |c| ==> p[i] != '/'
  {
    var p := ClientAddress(c, a);
    assert p == "clients/" + c + "/addresses/" + a;
    assert forall i :: 8 <= i < 8 + |c| ==> p[i] == c[i - 8];
  }

  // ---- ALERT_MESSAGES ----

  const ClientCreated: string := "Cliente creado exitosamente"
  const ClientUpdated: string := "Cliente actualizado exitosamente"
  const ClientDeleted: string := "Cliente eliminado exitosamente"
  const AddressCreated: string := "Dirección creada exitosamente"
  const AddressUpdated: string := "Dirección actualizada exitosamente"
  const AddressDeleted: string := "Dirección eliminada exitosamente"
  const FormError: string := "Por favor, corrija los siguientes errores:"
  const GenericError: string := "Ocurrió un error. Intente nuevamente"

  /**
   * The six outcome texts are pairwise distinct: they tell the three outcomes
   * apart, and a client outcome from an address outcome.
   */
  lemma OutcomeMessagesDistinct()
    ensures ClientCreated != ClientUpdated && ClientCreated != ClientDeleted && ClientUpdated != ClientDeleted
    ensures AddressCreated != AddressUpdated && AddressCreated != AddressDeleted && AddressUpdated != AddressDeleted
    ensures forall c, a :: c in [ClientCreated, ClientUpdated, ClientDeleted] && a in [AddressCreated, AddressUpdated, AddressDeleted] ==> c != a
    ensures |{ClientCreated, ClientUpdated, ClientDeleted, AddressCreated, AddressUpdated, AddressDeleted}| == 6
  {
    assert ClientCreated[8] == 'c' && ClientUpdated[8] == 'a' && ClientDeleted[8] == 'e';
    assert AddressCreated[10] == 'c' && AddressUpdated[10] == 'a' && AddressDeleted[10] == 'e';
    assert ClientCreated[0] == 'C' && ClientUpdated[0] == 'C' && ClientDeleted[0] == 'C';
    assert AddressCreated[0] == 'D' && AddressUpdated[0] == 'D' && AddressDeleted[0] == 'D';
  }
}
