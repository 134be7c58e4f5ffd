/** Which pull requests a client honours, and the fulfilment it posts (src/payloads.cpp). */
module PullRequests {
  import opened Base
  import opened JsonTree
  import opened JsonAck
  import opened JsonWriting
  import opened Payloads
  import opened PayloadBuilders
  import opened Utf8
  import opened Decimal

  /** What a client is known by when an acknowledgement arrives. */
  datatype Identity = Identity(userId: string, sessionId: string, matchId: string, serverId: string)

  function IdentityPart(id: Identity, targetType: string): string {
    if targetType == "userId" then id.userId
    else if targetType == "sessionId" then id.sessionId
    else if targetType == "matchId" then id.matchId
    else if targetType == "server" then id.serverId
    else ""
  }

  /** A request is for this client when it names a non-empty part of its identity. */
  predicate Targets(r: PullRequest, id: Identity) {
    r.targetValue != "" && IdentityPart(id, r.targetType) == r.targetValue
  }

  method PullRequestTargetsClient(r: PullRequest, id: Identity) returns (yes: bool)
    ensures yes == Targets(r, id)
    ensures yes <==> r.targetValue != "" && ((r.targetType == "userId" && id.userId == r.targetValue)
                                             || (r.targetType == "sessionId" && id.sessionId == r.targetValue)
                                             || (r.targetType == "matchId" && id.matchId == r.targetValue)
                                             || (r.targetType == "server" && id.serverId == r.targetValue))
  {
    if r.targetValue == "" {
      return false;
    }
    if r.targetType == "userId" {
      return id.userId != "" && id.userId == r.targetValue;
    }
    if r.targetType == "sessionId" {
      return id.sessionId != "" && id.sessionId == r.targetValue;
    }
    if r.targetType == "matchId" {
      return id.matchId != "" && id.matchId == r.targetValue;
    }
    if r.targetType == "server" {
      return id.serverId != "" && id.serverId == r.targetValue;
    }
    return false;
  }

  function IdentityMembers(id: Identity): seq<Member> {
    Optional("userId", id.userId, 128) + Optional("sessionId", id.sessionId, 64)
    + Optional("matchId", id.matchId, 128) + Optional("serverId", id.serverId, 128)
  }

  /** The nonce and its expiry go out as a pair or not at all. */
  function NonceMembers(nonce: string, expiry: int): seq<Member> {
    if nonce == "" then [] else Clamped("nonce", nonce, 256) + Int("nonceExpiry", expiry)
  }

  function FulfilTree(id: Identity, nonce: string, expiry: int): Json {
    JObject(IdentityMembers(id) + NonceMembers(nonce, expiry))
  }

  /**
   * A fulfilment names the part of the identity the request was for, cut to its limit, and hands the
   * nonce back with its expiry.
   */
  lemma FulfilNamesTarget(r: PullRequest, id: Identity)
    requires Targets(r, id)
    ensures var ms := FulfilTree(id, r.fulfillNonce, r.nonceExpiry).members;
            && Member(if r.targetType == "server" then "serverId" else r.targetType,
                      JString(Truncate(r.targetValue, if r.targetType == "sessionId" then 64 else 128))) in ms
            && (r.fulfillNonce != "" ==> Member("nonce", JString(Truncate(r.fulfillNonce, 256))) in ms
                                         && Member("nonceExpiry", JToken(IntText(r.nonceExpiry))) in ms)
  {
    var a, b := Optional("userId", id.userId, 128), Optional("sessionId", id.sessionId, 64);
    var c, d := Optional("matchId", id.matchId, 128), Optional("serverId", id.serverId, 128);
    var t := Truncate(r.targetValue, if r.targetType == "sessionId" then 64 else 128);
    assert (id.userId != "" ==> a[0] == Member("userId", JString(Truncate(id.userId, 128))));
    assert (id.sessionId != "" ==> b[0] == Member("sessionId", JString(Truncate(id.sessionId, 64))));
    assert (id.matchId != "" ==> c[0] == Member("matchId", JString(Truncate(id.matchId, 128))));
    assert (id.serverId != "" ==> d[0] == Member("serverId", JString(Truncate(id.serverId, 128))));
    var n := NonceMembers(r.fulfillNonce, r.nonceExpiry);
    if r.fulfillNonce != "" {
      assert n[0] == Member("nonce", JString(Truncate(r.fulfillNonce, 256))) && n[1] == Int("nonceExpiry", r.nonceExpiry)[0];
    }
    assert FulfilTree(id, r.fulfillNonce, r.nonceExpiry).members == a + b + c + d + n;
  }

  method BuildPullFulfillJson(id: Identity, nonce: string, expiry: int) returns (body: string)
    ensures body == Print(FulfilTree(id, nonce, expiry))
  {
    var w := new JsonWriter();
    w.BeginObject();
    ScopeStart(EMPTY, "{");
    IdentityFields(w, id);
    NonceFields(w, nonce, expiry, IdentityMembers(id));
    w.EndObject();
    RootClose(IdentityMembers(id) + NonceMembers(nonce, expiry));
    body := w.out;
  }

  method IdentityFields(w: JsonWriter, id: Identity)
    requires w.State() == Scope(EMPTY, "{", [])
    modifies w
    ensures w.State() == Scope(EMPTY, "{", IdentityMembers(id))
  {
    ghost var a, b := Optional("userId", id.userId, 128), Optional("sessionId", id.sessionId, 64);
    OptionalField(w, "userId", id.userId, 128, EMPTY, "{", []);
    assert [] + a == a;
    OptionalField(w, "sessionId", id.sessionId, 64, EMPTY, "{", a);
    OptionalField(w, "matchId", id.matchId, 128, EMPTY, "{", a + b);
    OptionalField(w, "serverId", id.serverId, 128, EMPTY, "{", a + b + Optional("matchId", id.matchId, 128));
  }

  method NonceFields(w: JsonWriter, nonce: string, expiry: int, ghost ms: seq<Member>)
    requires w.State() == Scope(EMPTY, "{", ms)
    modifies w
    ensures w.State() == Scope(EMPTY, "{", ms + NonceMembers(nonce, expiry))
  {
    if nonce != "" {
      ClampedField(w, "nonce", nonce, 256, EMPTY, "{", ms);
      w.IntField("nonceExpiry", expiry);
      ghost var a := Clamped("nonce", nonce, 256);
      ScopeAdd(EMPTY, "{", ms + a, Int("nonceExpiry", expiry)[0]);
      Assoc(ms, a, Int("nonceExpiry", expiry));
    } else {
      assert ms + [] == ms;
    }
  }
}
