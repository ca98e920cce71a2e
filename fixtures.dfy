/**
  Fixture helpers of TestBase that decide or build something locally:
  the find-or-create decision for roles, and the XML data set that
  patches a provider's role directly in the database.
 */
module Fixtures {
  import opened Wrappers
  import opened JavaText
  import opened Templates

  /** A role the tests use: its name, its uuid once known, and whether
      this framework created it (and so must delete it). */
  class RoleInfo {
    var name: string
    var uuid: Option<string>
    var created: bool

    constructor (name: string)
      ensures this.name == name && uuid == None && !created
    {
      this.name := name;
      uuid := None;
      created := false;
    }
  }

  /** The roles the server knows, by name, as the role lookup and the role
      creation of the remote API see them. */
  class RoleStore {
    var roles: map<string, string>

    constructor (roles: map<string, string>)
      ensures this.roles == roles
    {
      this.roles := roles;
    }

    /** The uuid of the role with this name, None when there is none. */
    method GetRoleUuid(name: string) returns (r: Option<string>)
      ensures r.Some? <==> name in roles
      ensures r.Some? ==> r.value == roles[name]
    {
      r := if name in roles then Some(roles[name]) else None;
    }

    /** Creates the role on the server; the server answers with the uuid
        given as newUuid, which is also set on ri. */
    method CreateRole(ri: RoleInfo, newUuid: string)
      modifies this, ri
      ensures roles == old(roles)[ri.name := newUuid]
      ensures ri.name == old(ri.name) && ri.uuid == Some(newUuid) && ri.created == old(ri.created)
    {
      roles := roles[ri.name := newUuid];
      ri.uuid := Some(newUuid);
    }
  }

  /** findOrCreateRole: looks the role up by name; creates it, marked as
      created, when the lookup finds nothing; otherwise takes the uuid found
      and marks it as not created. Either way the role exists afterwards
      with the returned uuid. */
  method FindOrCreateRole(store: RoleStore, name: string, newUuid: string) returns (ri: RoleInfo)
    modifies store
    ensures fresh(ri) && ri.name == name
    ensures old(name in store.roles) ==>
      ri.uuid == Some(old(store.roles[name])) && !ri.created && store.roles == old(store.roles)
    ensures old(name !in store.roles) ==>
      ri.uuid == Some(newUuid) && ri.created && store.roles == old(store.roles)[name := newUuid]
    ensures name in store.roles && ri.uuid == Some(store.roles[name])
  {
    ri := new RoleInfo(name);
    var uuid := store.GetRoleUuid(name);
    if uuid.None? {
      store.CreateRole(ri, newUuid);
      ri.created := true;
    } else {
      ri.uuid := uuid;
      ri.created := false;
    }
  }

  /** Two calls for the same name: the second finds what the first made or
      found, so it yields the same uuid and reports the role as not created. */
  method FindOrCreateRoleTwice(store: RoleStore, name: string, newUuid1: string, newUuid2: string)
    returns (first: RoleInfo, second: RoleInfo)
    modifies store
    ensures first.created <==> old(name !in store.roles)
    ensures second.uuid == first.uuid && !second.created
    ensures second.name == first.name == name
  {
    first := FindOrCreateRole(store, name, newUuid1);
    second := FindOrCreateRole(store, name, newUuid2);
  }

  // ---------------------------------------------------------------------
  // The provider-role patch of createUser
  // ---------------------------------------------------------------------

  /** The flat XML data set createUser hands to the UPDATE operation to set
      the provider_role_id of the provider it has just created. */
  function ProviderPatchXml(providerId: string, providerUuid: string, providerRoleId: int): string {
    "<dataset>"
      + "<provider "
      + "provider_id='" + providerId
      + "' uuid='" + providerUuid
      + "' provider_role_id='" + IntToString(providerRoleId) + "'/>"
      + "</dataset>"
  }

  /** The literal text around the three attribute values. */
  const PROVIDER_PATCH_PIECES: seq<string> :=
    ["<dataset><provider provider_id='", "' uuid='", "' provider_role_id='", "'/></dataset>"]

  /** The three attribute values of a provider patch, with the role id read
      as an integer. */
  function ReadProviderPatch(xml: string): Option<(string, string, int)> {
    match Match(PROVIDER_PATCH_PIECES, xml)
    case None => None
    case Some(vs) =>
      if |vs| != 3 then None
      else
        match ParseInt(vs[2])
        case None => None
        case Some(n) => Some((vs[0], vs[1], n))
  }

  lemma ProviderPatchIsFill(providerId: string, providerUuid: string, providerRoleId: int)
    ensures ProviderPatchXml(providerId, providerUuid, providerRoleId) ==
            Fill(PROVIDER_PATCH_PIECES, [providerId, providerUuid, IntToString(providerRoleId)])
  {
    var id := IntToString(providerRoleId);
    FillThree("<dataset><provider provider_id='", "' uuid='", "' provider_role_id='", "'/></dataset>",
              providerId, providerUuid, id);
    assert "<dataset>" + "<provider " + "provider_id='" == "<dataset><provider provider_id='";
    assert "'/>" + "</dataset>" == "'/></dataset>";
  }

  /** Every attribute of the patch is single-quoted: as long as the id and
      the uuid contain no quote, reading the XML back yields the provider
      id, the uuid and the role id that went in. */
  lemma ProviderPatchReadBack(providerId: string, providerUuid: string, providerRoleId: int)
    requires '\'' !in providerId && '\'' !in providerUuid
    ensures ReadProviderPatch(ProviderPatchXml(providerId, providerUuid, providerRoleId)) ==
            Some((providerId, providerUuid, providerRoleId))
  {
    var vs := [providerId, providerUuid, IntToString(providerRoleId)];
    ProviderPatchIsFill(providerId, providerUuid, providerRoleId);
    assert Delimited(PROVIDER_PATCH_PIECES);
    assert '\'' !in IntToString(providerRoleId) by {
      var t := IntToString(providerRoleId);
      var d := NatToString(if providerRoleId < 0 then -providerRoleId else providerRoleId);
      assert forall i :: 0 <= i < |d| ==> d[i] != '\'';
      assert t == d || t == "-" + d;
    }
    assert Fits(PROVIDER_PATCH_PIECES, vs);
    MatchFill(PROVIDER_PATCH_PIECES, vs);
    IntRoundTrip(providerRoleId);
  }
}
