/** The audit trail (`log_activity` in core/decorators.py and the AuditLog
    model of core/models.py): every call appends exactly one entry, carrying
    the client address taken from the request headers. */
module Audit {
  import opened Base

  /** `AuditLog.ACTION_CHOICES`. */
  datatype Action = Create | Update | Delete | View | Login | Logout | Export | Import

  /** The request headers `log_activity` reads; a header that is absent is None. */
  datatype Meta = Meta(forwardedFor: Option<string>, remoteAddr: Option<string>, userAgent: Option<string>)

  /** An AuditLog row (the timestamp is assigned by the database and left out). */
  datatype Entry = Entry(
    user: Option<nat>,
    action: Action,
    modelName: string,
    objectId: Option<int>,
    objectRepr: string,
    description: string,
    ip: Option<string>,
    userAgent: string)

  /** `s.split(',')[0]`: the text before the first ',' (all of `s` if none). */
  function FirstField(s: string): (f: string)
    ensures |f| <= |s| && f == s[..|f|]
    ensures forall i :: 0 <= i < |f| ==> f[i] != ','
    ensures |f| < |s| ==> s[|f|] == ','
    decreases |s|
  {
    if s == [] || s[0] == ',' then [] else [s[0]] + FirstField(s[1..])
  }

  /** A comma-free field followed by anything after a comma is read back. */
  lemma {:induction false} FirstFieldOfList(first: string, rest: string)
    requires forall i :: 0 <= i < |first| ==> first[i] != ','
    ensures FirstField(first + "," + rest) == first
    decreases |first|
  {
    var s := first + "," + rest;
    if first == [] {
      assert s[0] == ',';
    } else {
      assert s[0] == first[0];
      assert s[1..] == first[1..] + "," + rest;
      FirstFieldOfList(first[1..], rest);
      assert [first[0]] + first[1..] == first;
    }
  }

  /** The client address: the first entry of a non-empty X-Forwarded-For,
      otherwise REMOTE_ADDR (which may itself be absent). */
  function ClientIp(meta: Meta): (ip: Option<string>)
    ensures meta.forwardedFor.Some? && meta.forwardedFor.value != [] ==>
      ip.Some? && ip.value <= meta.forwardedFor.value && ',' !in ip.value
    ensures meta.forwardedFor.Some? && meta.forwardedFor.value != [] ==>
      var xff := meta.forwardedFor.value;
      |ip.value| == |xff| || xff[|ip.value|] == ','
    ensures (meta.forwardedFor.None? || meta.forwardedFor.value == []) ==> ip == meta.remoteAddr
  {
    match meta.forwardedFor
    case Some(xff) =>
      if xff != [] then
        var f := FirstField(xff);
        assert forall c :: c in f ==> c != ',';
        Some(f)
      else meta.remoteAddr
    case None => meta.remoteAddr
  }

  /** A proxy chain "client, proxy1, ..." yields the client's address. */
  lemma ClientIpOfChain(client: string, proxies: string, remote: Option<string>, agent: Option<string>)
    requires forall i :: 0 <= i < |client| ==> client[i] != ','
    ensures ClientIp(Meta(Some(client + "," + proxies), remote, agent)) == Some(client)
  {
    FirstFieldOfList(client, proxies);
  }

  /** What `AuditLog.ip_address`, a `GenericIPAddressField`, stores for an
      address: the empty text is stored as NULL. */
  function StoredIp(ip: Option<string>): (stored: Option<string>)
    ensures stored != Some("")
    ensures ip != Some("") ==> stored == ip
  {
    if ip == Some("") then None else ip
  }

  /** A forwarded header that starts with a comma names no client: the
      entry's address is NULL, not REMOTE_ADDR. */
  lemma LeadingCommaStoredNull(proxies: string, remote: Option<string>, agent: Option<string>)
    ensures ClientIp(Meta(Some("," + proxies), remote, agent)) == Some("")
    ensures StoredIp(ClientIp(Meta(Some("," + proxies), remote, agent))) == None
  {
    FirstFieldOfList("", proxies);
    assert "" + "," + proxies == "," + proxies;
  }

  /** `log_activity(...)`: appends exactly one entry with the given fields.
      Without a request the address is None and the user agent is empty. */
  function LogActivity(
    log: seq<Entry>, user: Option<nat>, action: Action, modelName: string,
    objectId: Option<int>, objectRepr: string, description: string, request: Option<Meta>): (r: seq<Entry>)
    ensures |r| == |log| + 1 && r[..|log|] == log
    ensures var e := r[|log|];
      e.user == user && e.action == action && e.modelName == modelName
      && e.objectId == objectId && e.objectRepr == objectRepr && e.description == description
    ensures request.None? ==> r[|log|].ip == None && r[|log|].userAgent == ""
    ensures request.Some? ==> r[|log|].ip == StoredIp(ClientIp(request.value))
    ensures r[|log|].ip != Some("")
    ensures request.Some? && request.value.userAgent.Some? ==> r[|log|].userAgent == request.value.userAgent.value
    ensures request.Some? && request.value.userAgent.None? ==> r[|log|].userAgent == ""
  {
    var ip := if request.Some? then StoredIp(ClientIp(request.value)) else None;
    var agent := if request.Some? && request.value.userAgent.Some? then request.value.userAgent.value else "";
    log + [Entry(user, action, modelName, objectId, objectRepr, description, ip, agent)]
  }
}
