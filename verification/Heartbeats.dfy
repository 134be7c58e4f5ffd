/**
 * Identity and metadata on heartbeats (src/client.cpp, src/client_reports.cpp): what a beat carries,
 * what its acknowledgement commits, and what a change of user voids. Building a beat and taking its
 * acknowledgement are one step each, although the code holds the user's and the metadata's lock in turn.
 */
module Heartbeats {
  import opened Base
  import opened UserMetadata
  import opened Utf8

  const MAX_USER_ID := 128
  const NO_METADATA := "{}"
  const NO_EPOCH := -1

  /** What a beat says about the user; `carried` is its metadata object, `prior` its priorUserId or "". */
  datatype Beat = Beat(userId: string, prior: string, carried: Option<string>, epoch: int)

  datatype Profile = Profile(
    provisional: string,     // device-derived id, set once at start
    userId: string,          // "" while no user is set
    pendingPrior: string,    // marker still to be delivered
    priorInFlight: string,   // marker the last beat with one carried
    entries: seq<Entry>,     // the metadata map
    lastAcked: string,       // map the server is taken to know
    epoch: int,              // identity changes so far
    inFlightJson: string, inFlightEpoch: int)

  function Fresh(provisional: string): Profile {
    Profile(provisional, "", "", "", [], NO_METADATA, 0, "", NO_EPOCH)
  }

  function EffectiveId(p: Profile): string { if p.userId == "" then p.provisional else p.userId }

  /** A change from the provisional id to another one stamps a marker. */
  predicate Stamps(p: Profile, next: string) {
    next != "" && p.provisional != "" && next != p.provisional && EffectiveId(p) == p.provisional
  }

  /** The marker after a change to `next`. */
  function PriorAfter(p: Profile, next: string): string {
    if next == "" then "" else if Stamps(p, next) then p.provisional else p.pendingPrior
  }

  function WithUser(p: Profile, next: string): Profile {
    if next == p.userId then p.(pendingPrior := PriorAfter(p, next))
    else p.(userId := next, pendingPrior := PriorAfter(p, next), lastAcked := NO_METADATA, epoch := p.epoch + 1,
            entries := if p.userId != "" then [] else p.entries)
  }

  predicate Carries(p: Profile) { Canonical(p.entries) != p.lastAcked }

  function NextBeat(p: Profile): Beat {
    Beat(EffectiveId(p), p.pendingPrior, if Carries(p) then Some(Canonical(p.entries)) else None, p.epoch)
  }

  function AfterBeat(p: Profile): Profile {
    var q := if p.pendingPrior != "" then p.(priorInFlight := p.pendingPrior) else p;
    if Carries(p) then q.(inFlightJson := Canonical(p.entries), inFlightEpoch := p.epoch) else q
  }

  function AfterAck(p: Profile): Profile {
    p.(pendingPrior := if p.priorInFlight != "" && p.priorInFlight == p.pendingPrior then "" else p.pendingPrior,
       priorInFlight := "",
       lastAcked := if p.inFlightEpoch == p.epoch && p.inFlightJson != "" then p.inFlightJson else p.lastAcked,
       inFlightJson := "", inFlightEpoch := NO_EPOCH)
  }

  // ------------------------------------------------- the code

  class ClientIdentity {
    var provisionalUserId: string
    var userId: string
    var pendingPriorUserId: string
    var priorInFlight: string
    var userMetadata: seq<Entry>
    var metadataLastAckedJson: string
    var metadataEpoch: int
    var metadataInFlightJson: string
    var metadataInFlightEpoch: int

    function State(): Profile
      reads this
    {
      Profile(provisionalUserId, userId, pendingPriorUserId, priorInFlight, userMetadata, metadataLastAckedJson,
              metadataEpoch, metadataInFlightJson, metadataInFlightEpoch)
    }

    constructor (provisional: string)
      ensures State() == Fresh(provisional)
    {
      provisionalUserId, userId, pendingPriorUserId, priorInFlight := provisional, "", "", "";
      userMetadata, metadataLastAckedJson, metadataEpoch := [], NO_METADATA, 0;
      metadataInFlightJson, metadataInFlightEpoch := "", NO_EPOCH;
    }

    /** None is a null id; like the empty one it logs the user out. */
    method SetUser(id: Option<string>)
      modifies this
      ensures State() == WithUser(old(State()), Truncate(id.GetOr(""), 128))
    {
      var next := Utf8SafeTruncate(id.GetOr(""), MAX_USER_ID);
      if next != userId {
        if userId != "" {
          userMetadata := [];
        }
        metadataLastAckedJson := NO_METADATA;
        metadataEpoch := metadataEpoch + 1;
      }
      if next == "" {
        pendingPriorUserId := "";
      } else if provisionalUserId != "" && next != provisionalUserId {
        var currentEffective := if userId == "" then provisionalUserId else userId;
        if currentEffective == provisionalUserId {
          pendingPriorUserId := provisionalUserId;
        }
      }
      userId := next;
    }

    /** Replaces the whole map. None is a positive count with a null array, which is refused. */
    method SetUserMetadata(pairs: Option<seq<Pair>>) returns (ok: bool)
      modifies this
      ensures ok == pairs.Some?
      ensures State() == if ok then old(State()).(entries := Clamp(pairs.value)) else old(State())
    {
      if pairs.None? {
        return false;
      }
      userMetadata := ClampUserMetadata(pairs.value);
      return true;
    }

    method BuildBeat() returns (beat: Beat)
      modifies this
      ensures beat == NextBeat(old(State())) && State() == AfterBeat(old(State()))
    {
      var user := if userId == "" then provisionalUserId else userId;
      var prior := "";
      if pendingPriorUserId != "" {
        prior := pendingPriorUserId;
        priorInFlight := pendingPriorUserId;
      }
      var current := BuildUserMetadataJson(userMetadata);
      var carried: Option<string> := None;
      if current != metadataLastAckedJson {
        metadataInFlightJson := current;
        metadataInFlightEpoch := metadataEpoch;
        carried := Some(current);
      }
      beat := Beat(user, prior, carried, metadataEpoch);
    }

    /** Any beat's acknowledgement. */
    method HandleAck()
      modifies this
      ensures State() == AfterAck(old(State()))
    {
      if priorInFlight != "" && priorInFlight == pendingPriorUserId {
        pendingPriorUserId := "";
      }
      priorInFlight := "";
      if metadataInFlightEpoch == metadataEpoch && metadataInFlightJson != "" {
        metadataLastAckedJson := metadataInFlightJson;
      }
      metadataInFlightJson := "";
      metadataInFlightEpoch := NO_EPOCH;
    }
  }

  // ------------------------------------------------- runs

  /**
   * `flying` are the beats on their way, `built` all of them so far, and `delivered` the map the last
   * acknowledged beat of this identity carried, if any did. Every marker reads the same, so what tells
   * one from another is `stamp`, the identity epoch the last stamping began. `lastMap` is the map set
   * last, in epoch `mapEpoch`, and `leftAt` the epoch that the last change away from a real id began.
   */
  datatype Protocol = Protocol(p: Profile, flying: seq<Beat>, built: seq<Beat>, delivered: string, stamp: int,
                               lastMap: seq<Entry>, mapEpoch: int, leftAt: int)

  datatype Step =
    | SetId(id: string)
    | SetMap(pairs: seq<Pair>)
    | Build
    | Ack(i: nat)    // beat i arrived and its acknowledgement came back
    | Lose(i: nat)   // beat i was dropped, rejected or went unanswered

  predicate Enabled(s: Protocol, e: Step) {
    match e
    case Ack(i) => i < |s.flying|
    case Lose(i) => i < |s.flying|
    case _ => true
  }

  function Next(s: Protocol, e: Step): Protocol
    requires Enabled(s, e)
  {
    match e
    case SetId(id) =>
      s.(p := WithUser(s.p, id), delivered := if id == s.p.userId then s.delivered else NO_METADATA,
         stamp := if Stamps(s.p, id) then s.p.epoch + 1 else s.stamp,
         leftAt := if s.p.userId != "" && s.p.userId != id then s.p.epoch + 1 else s.leftAt)
    case SetMap(pairs) =>
      s.(p := s.p.(entries := Clamp(pairs)), lastMap := Clamp(pairs), mapEpoch := s.p.epoch)
    case Build => s.(p := AfterBeat(s.p), flying := s.flying + [NextBeat(s.p)], built := s.built + [NextBeat(s.p)])
    case Ack(i) =>
      var b := s.flying[i];
      s.(p := AfterAck(s.p), flying := s.flying[..i] + s.flying[i + 1..],
         delivered := if b.carried.Some? && b.epoch == s.p.epoch then b.carried.value else s.delivered)
    case Lose(i) => s.(flying := s.flying[..i] + s.flying[i + 1..])
  }

  predicate Possible(s: Protocol, run: seq<Step>)
    decreases |run|
  {
    run == [] || (Enabled(s, run[0]) && Possible(Next(s, run[0]), run[1..]))
  }

  function After(s: Protocol, run: seq<Step>): Protocol
    requires Possible(s, run)
    decreases |run|
  {
    if run == [] then s else After(Next(s, run[0]), run[1..])
  }

  function Start(provisional: string): Protocol {
    Protocol(Fresh(provisional), [], [], NO_METADATA, 0, [], NO_EPOCH, 0)
  }

  // ------------------------------------------------- what every run keeps

  predicate WasCarried(built: seq<Beat>, json: string, epoch: int) {
    exists i :: 0 <= i < |built| && built[i].carried == Some(json) && built[i].epoch == epoch
  }

  predicate WasMarked(built: seq<Beat>, prior: string) {
    exists i :: 0 <= i < |built| && built[i].prior == prior
  }

  predicate Inv(s: Protocol) {
    && (s.p.lastAcked != NO_METADATA ==> WasCarried(s.built, s.p.lastAcked, s.p.epoch))
    && (s.p.inFlightJson != "" ==> WasCarried(s.built, s.p.inFlightJson, s.p.inFlightEpoch))
    && (s.p.pendingPrior != "" ==> s.p.pendingPrior == s.p.provisional)
    && (s.p.userId == "" ==> s.p.pendingPrior == "")
    && (s.p.priorInFlight != "" ==> WasMarked(s.built, s.p.priorInFlight))
  }

  lemma CarriedStays(built: seq<Beat>, b: Beat)
    ensures forall json, epoch :: WasCarried(built, json, epoch) ==> WasCarried(built + [b], json, epoch)
    ensures forall prior :: WasMarked(built, prior) ==> WasMarked(built + [b], prior)
    ensures b.carried.Some? ==> WasCarried(built + [b], b.carried.value, b.epoch)
    ensures WasMarked(built + [b], b.prior)
  {
    var all := built + [b];
    assert all[|built|] == b && forall i :: 0 <= i < |built| ==> all[i] == built[i];
  }

  lemma StepKeepsInv(s: Protocol, e: Step)
    requires Inv(s) && Enabled(s, e)
    ensures Inv(Next(s, e))
  {
    if e.Build? {
      CarriedStays(s.built, NextBeat(s.p));
    }
  }

  lemma {:induction false} RunKeepsInv(s: Protocol, run: seq<Step>)
    requires Inv(s) && Possible(s, run)
    ensures Inv(After(s, run))
    decreases |run|
  {
    if run != [] {
      StepKeepsInv(s, run[0]);
      RunKeepsInv(Next(s, run[0]), run[1..]);
    }
  }

  /**
   * In every run the acknowledged baseline is the empty map or one that a beat of the current
   * identity carried; the marker is empty or the provisional id, and empty while nobody is logged in.
   */
  lemma BaselineAndMarker(provisional: string, run: seq<Step>)
    requires Possible(Start(provisional), run)
    ensures var s := After(Start(provisional), run);
            && (s.p.lastAcked == NO_METADATA || WasCarried(s.built, s.p.lastAcked, s.p.epoch))
            && (s.p.pendingPrior == "" || s.p.pendingPrior == s.p.provisional)
            && (s.p.userId == "" ==> s.p.pendingPrior == "")
  {
    RunKeepsInv(Start(provisional), run);
  }

  /** Only a logout or an acknowledgement clears the marker, the latter only once some beat carried it. */
  lemma MarkerCleared(s: Protocol, e: Step)
    requires Inv(s) && Enabled(s, e) && s.p.pendingPrior != "" && Next(s, e).p.pendingPrior == ""
    ensures e == SetId("") || (e.Ack? && WasMarked(s.built, s.p.pendingPrior))
  {
  }

  // ------------------------------------------------- whose map a beat carries

  /** The map in force is the one set last, unless a real user was left since: then there is none. */
  ghost predicate OwnMap(s: Protocol) {
    && s.p.entries == (if s.leftAt <= s.mapEpoch then s.lastMap else [])
    && s.mapEpoch <= s.p.epoch && s.leftAt <= s.p.epoch && UserMetadata.Bounded(s.lastMap)
  }

  lemma StepKeepsOwnMap(s: Protocol, e: Step)
    requires OwnMap(s) && Enabled(s, e)
    ensures OwnMap(Next(s, e))
  {
    if e.SetMap? {
      UserMetadata.ClampBounds(e.pairs);
    }
  }

  lemma {:induction false} RunKeepsOwnMap(s: Protocol, run: seq<Step>)
    requires OwnMap(s) && Possible(s, run)
    ensures OwnMap(After(s, run))
    decreases |run|
  {
    if run != [] {
      StepKeepsOwnMap(s, run[0]);
      RunKeepsOwnMap(Next(s, run[0]), run[1..]);
    }
  }

  /**
   * Over every run: a beat that carries any attribute carries the map set last, and it was set since a
   * real user was last left, so no player's attributes are sent under another's id.
   */
  lemma BeatCarriesOwnMap(provisional: string, run: seq<Step>)
    requires Possible(Start(provisional), run)
    ensures var t := After(Start(provisional), run);
            var b := NextBeat(t.p);
            && t.p.entries == (if t.leftAt <= t.mapEpoch then t.lastMap else [])
            && (b.carried.Some? && b.carried.value != "{}" ==> t.leftAt <= t.mapEpoch && b.carried.value == Canonical(t.lastMap))
  {
    EmptyMap();
    RunKeepsOwnMap(Start(provisional), run);
  }

  /**
   * A change away from a real user leaves nothing to carry, whatever was set, carried or acknowledged
   * before; a first login keeps the map, and carries it whenever it holds anything. The next beat names
   * the provisional id as prior when the change is from it to another one; a change between other
   * users keeps what was pending, and a logout voids it.
   */
  lemma ChangeOfUser(provisional: string, run: seq<Step>, id: string)
    requires Possible(Start(provisional), run) && id != After(Start(provisional), run).p.userId
    ensures var t := After(Start(provisional), run);
            var u := Next(t, SetId(id));
            var b := NextBeat(u.p);
            && b.userId == (if id != "" then id else provisional) && b.epoch == t.p.epoch + 1
            && (t.p.userId != "" ==> u.p.entries == [] && b.carried == None)
            && (t.p.userId == "" ==> u.p.entries == t.p.entries && (t.p.entries != [] ==> b.carried == Some(Canonical(t.p.entries))))
            && b.prior == (if id == "" then ""
                           else if t.p.userId in {"", provisional} && id != provisional then provisional
                           else t.p.pendingPrior)
  {
    EmptyMap();
    RunKeepsMarkers(Start(provisional), run, provisional);
    RunKeepsOwnMap(Start(provisional), run);
    UserMetadata.CanonicalEmpty(After(Start(provisional), run).p.entries);
  }

  // ------------------------------------------------- when the baseline is what was delivered

  /** The baseline is what was delivered. */
  predicate InSync(s: Protocol) { s.p.lastAcked == s.delivered }

  /** A carried map of this identity has been neither delivered nor overwritten. */
  predicate SlotLive(p: Profile) { p.inFlightJson != "" && p.inFlightEpoch == p.epoch }

  /** A live slot differs from the baseline, and no slot is of an identity still to come. */
  predicate SlotInv(p: Profile) {
    p.inFlightEpoch <= p.epoch && 0 <= p.epoch && (SlotLive(p) ==> p.inFlightJson != p.lastAcked)
  }

  lemma StepKeepsSlot(s: Protocol, e: Step)
    requires SlotInv(s.p) && Enabled(s, e)
    ensures SlotInv(Next(s, e).p)
  {
  }

  /**
   * An acknowledgement says what its beat delivered: with a live slot the beat carried that very map
   * under this identity, and without one it carried nothing new.
   */
  predicate Fits(s: Protocol, i: nat)
    requires i < |s.flying|
  {
    var b := s.flying[i];
    if SlotLive(s.p) then b.epoch == s.p.epoch && b.carried == Some(s.p.inFlightJson)
    else b.epoch == s.p.epoch && b.carried.Some? ==> b.carried.value == s.p.lastAcked
  }

  /** With any number of beats under way, exactly the acknowledgements that fit keep the two in step. */
  lemma StaysInSync(s: Protocol, e: Step)
    requires SlotInv(s.p) && InSync(s) && Enabled(s, e)
    ensures InSync(Next(s, e)) <==> (e.Ack? ==> Fits(s, e.i))
  {
  }

  predicate AllFit(s: Protocol, run: seq<Step>)
    requires Possible(s, run)
    decreases |run|
  {
    run == [] || ((run[0].Ack? ==> Fits(s, run[0].i)) && AllFit(Next(s, run[0]), run[1..]))
  }

  predicate AlwaysInSync(s: Protocol, run: seq<Step>)
    requires Possible(s, run)
    decreases |run|
  {
    InSync(s) && (run == [] || AlwaysInSync(Next(s, run[0]), run[1..]))
  }

  /** Over every run: the baseline is always what was delivered exactly when every acknowledgement fits. */
  lemma {:induction false} AlwaysInSyncExactly(s: Protocol, run: seq<Step>)
    requires SlotInv(s.p) && InSync(s) && Possible(s, run)
    ensures AlwaysInSync(s, run) <==> AllFit(s, run)
    ensures AllFit(s, run) ==> InSync(After(s, run))
    decreases |run|
  {
    if run != [] {
      StepKeepsSlot(s, run[0]);
      StaysInSync(s, run[0]);
      if InSync(Next(s, run[0])) {
        AlwaysInSyncExactly(Next(s, run[0]), run[1..]);
      }
    }
  }

  /**
   * When every acknowledgement fits, the next beat carries the metadata exactly when the current map
   * differs from the one last delivered under this identity.
   */
  lemma CarriesExactlyChanges(provisional: string, run: seq<Step>)
    requires Possible(Start(provisional), run) && AllFit(Start(provisional), run)
    ensures var t := After(Start(provisional), run);
            NextBeat(t.p).carried.Some? <==> Canonical(t.p.entries) != t.delivered
  {
    AlwaysInSyncExactly(Start(provisional), run);
  }

  // ------------------------------------------------- one beat at a time

  /** Each beat is resolved before the next is built. */
  predicate Serial(s: Protocol, run: seq<Step>)
    requires Possible(s, run)
    decreases |run|
  {
    run == [] || ((run[0].Build? ==> s.flying == []) && Serial(Next(s, run[0]), run[1..]))
  }

  /** What the beat under way carried is in the slot. */
  predicate SerialInv(s: Protocol) {
    && |s.flying| <= 1 && SlotInv(s.p)
    && (|s.flying| == 1 ==>
          var b := s.flying[0];
          && b.epoch <= s.p.epoch
          && (b.carried.Some? ==> s.p.inFlightEpoch == b.epoch && s.p.inFlightJson == b.carried.value && b.carried.value != ""))
  }

  /**
   * The acknowledgement of a beat that carried nothing, while an earlier carried map of this identity
   * is unresolved: the map was back at the baseline when that beat was built.
   */
  predicate StaleAck(s: Protocol, e: Step) {
    e.Ack? && e.i < |s.flying| && s.flying[e.i].carried.None? && SlotLive(s.p)
  }

  lemma CanonicalIsText(es: seq<Entry>)
    ensures Canonical(es) != ""
  {
  }

  lemma StepKeepsSerial(s: Protocol, e: Step)
    requires SerialInv(s) && Enabled(s, e) && (e.Build? ==> s.flying == [])
    ensures SerialInv(Next(s, e))
  {
    CanonicalIsText(s.p.entries);
    StepKeepsSlot(s, e);
  }

  predicate NoStaleAck(s: Protocol, run: seq<Step>)
    requires Possible(s, run)
    decreases |run|
  {
    run == [] || (!StaleAck(s, run[0]) && NoStaleAck(Next(s, run[0]), run[1..]))
  }

  /** With one beat at a time the acknowledgements that do not fit are exactly the stale ones. */
  lemma {:induction false} SerialFits(s: Protocol, run: seq<Step>)
    requires SerialInv(s) && Possible(s, run) && Serial(s, run)
    ensures AllFit(s, run) <==> NoStaleAck(s, run)
    decreases |run|
  {
    if run != [] {
      StepKeepsSerial(s, run[0]);
      SerialFits(Next(s, run[0]), run[1..]);
    }
  }

  /** The map never returns to the baseline while a carried map is unresolved. */
  predicate NoReturn(s: Protocol, run: seq<Step>)
    requires Possible(s, run)
    decreases |run|
  {
    run == [] || ((run[0].Build? && SlotLive(s.p) ==> Carries(s.p)) && NoReturn(Next(s, run[0]), run[1..]))
  }

  /** Then a beat under way that carries nothing leaves no slot live. */
  predicate Quiet(s: Protocol) { |s.flying| == 1 && s.flying[0].carried.None? ==> !SlotLive(s.p) }

  lemma StepKeepsQuiet(s: Protocol, e: Step)
    requires SerialInv(s) && Quiet(s) && Enabled(s, e)
    requires e.Build? ==> s.flying == [] && (SlotLive(s.p) ==> Carries(s.p))
    ensures !StaleAck(s, e) && Quiet(Next(s, e))
  {
  }

  /** A map that stays away from the baseline while unresolved never meets a stale acknowledgement. */
  lemma {:induction false} NoReturnNoStaleAck(s: Protocol, run: seq<Step>)
    requires SerialInv(s) && Quiet(s) && Possible(s, run) && Serial(s, run) && NoReturn(s, run)
    ensures NoStaleAck(s, run)
    decreases |run|
  {
    if run != [] {
      StepKeepsSerial(s, run[0]);
      StepKeepsQuiet(s, run[0]);
      NoReturnNoStaleAck(Next(s, run[0]), run[1..]);
    }
  }

  /** So with one beat at a time and no such return, beats carry exactly the changes. */
  lemma SerialCarriesExactlyChanges(provisional: string, run: seq<Step>)
    requires var s := Start(provisional); Possible(s, run) && Serial(s, run) && NoReturn(s, run)
    ensures var t := After(Start(provisional), run);
            NextBeat(t.p).carried.Some? <==> Canonical(t.p.entries) != t.delivered
  {
    NoReturnNoStaleAck(Start(provisional), run);
    SerialFits(Start(provisional), run);
    CarriesExactlyChanges(provisional, run);
  }

  // ------------------------------------------------- which acknowledgement clears the marker

  predicate NoAck(run: seq<Step>) { forall i :: 0 <= i < |run| ==> !run[i].Ack? }

  /** A beat that carried the marker was built after the last acknowledgement of the run. */
  predicate MarkedSinceAck(s: Protocol, run: seq<Step>)
    requires Possible(s, run)
    decreases |run|
  {
    run != [] && ((run[0].Build? && NextBeat(s.p).prior != "" && NoAck(run[1..])) || MarkedSinceAck(Next(s, run[0]), run[1..]))
  }

  lemma {:induction false} SlotIsMarkedSinceAck(s: Protocol, run: seq<Step>)
    requires Possible(s, run)
    ensures After(s, run).p.priorInFlight != "" <==> MarkedSinceAck(s, run) || (s.p.priorInFlight != "" && NoAck(run))
    decreases |run|
  {
    if run != [] {
      assert NoAck(run) <==> !run[0].Ack? && NoAck(run[1..]);
      SlotIsMarkedSinceAck(Next(s, run[0]), run[1..]);
    }
  }

  /** The marker, its slot and every beat's marker are empty or the provisional id. */
  predicate Markers(s: Protocol, provisional: string) {
    && s.p.provisional == provisional && s.p.pendingPrior in {"", provisional} && s.p.priorInFlight in {"", provisional}
    && forall i :: 0 <= i < |s.flying| ==> s.flying[i].prior in {"", provisional}
  }

  lemma StepKeepsMarkers(s: Protocol, e: Step, provisional: string)
    requires Markers(s, provisional) && Enabled(s, e)
    ensures Markers(Next(s, e), provisional)
  {
  }

  lemma {:induction false} RunKeepsMarkers(s: Protocol, run: seq<Step>, provisional: string)
    requires Markers(s, provisional) && Possible(s, run)
    ensures Markers(After(s, run), provisional)
    decreases |run|
  {
    if run != [] {
      StepKeepsMarkers(s, run[0], provisional);
      RunKeepsMarkers(Next(s, run[0]), run[1..], provisional);
    }
  }

  /** The beat carried the marker that is pending, not that of an earlier login. */
  predicate CarriesMarker(s: Protocol, b: Beat) { b.prior != "" && s.stamp <= b.epoch }

  /**
   * Over every run, with any number of beats under way: an acknowledgement clears the marker exactly
   * when a beat that carried one was built since the last acknowledgement. So it clears the marker on
   * behalf of a beat that did not carry it exactly when there is such a beat, and the acknowledged one
   * carried none or was built before the last login stamped it.
   */
  lemma AckClearsMarker(provisional: string, run: seq<Step>, i: nat)
    requires Possible(Start(provisional), run)
    requires var t := After(Start(provisional), run); i < |t.flying| && t.p.pendingPrior != ""
    ensures var t := After(Start(provisional), run);
            var cleared, marked := Next(t, Ack(i)).p.pendingPrior == "", MarkedSinceAck(Start(provisional), run);
            && (cleared <==> marked)
            && (cleared && !CarriesMarker(t, t.flying[i]) <==> marked && (t.flying[i].prior == "" || t.flying[i].epoch < t.stamp))
  {
    SlotIsMarkedSinceAck(Start(provisional), run);
    RunKeepsMarkers(Start(provisional), run, provisional);
  }

  /** No beat is of an identity still to come, and the stamp is not either. */
  predicate StampInv(s: Protocol) {
    s.stamp <= s.p.epoch && forall i :: 0 <= i < |s.flying| ==> s.flying[i].epoch <= s.p.epoch
  }

  lemma {:induction false} RunKeepsStamp(s: Protocol, run: seq<Step>)
    requires StampInv(s) && Possible(s, run)
    ensures StampInv(After(s, run))
    decreases |run|
  {
    if run != [] {
      RunKeepsStamp(Next(s, run[0]), run[1..]);
    }
  }

  /** The epoch tells beats apart: those under way when a marker is stamped do not carry it, the next one does. */
  lemma StampSeparates(provisional: string, run: seq<Step>, id: string)
    requires Possible(Start(provisional), run) && Stamps(After(Start(provisional), run).p, id)
    ensures var t := After(Start(provisional), run);
            var u := Next(t, SetId(id));
            && (forall i :: 0 <= i < |u.flying| ==> !CarriesMarker(u, u.flying[i])) && CarriesMarker(u, NextBeat(u.p))
  {
    RunKeepsStamp(Start(provisional), run);
  }

  // ------------------------------------------------- the marker, one beat at a time

  /** A login stamps a marker while a beat is under way. */
  predicate Disturbs(s: Protocol, e: Step) { e.SetId? && s.flying != [] && Stamps(s.p, e.id) }

  /** In particular when no identity change at all falls between a beat and its outcome. */
  predicate Undisturbed(s: Protocol, run: seq<Step>)
    requires Possible(s, run)
    decreases |run|
  {
    run == [] || (!Disturbs(s, run[0]) && Undisturbed(Next(s, run[0]), run[1..]))
  }

  /** A pending marker rides on the beat under way. */
  predicate MarkerRides(s: Protocol) {
    |s.flying| <= 1 && s.stamp <= s.p.epoch && (|s.flying| == 1 && s.p.pendingPrior != "" ==> CarriesMarker(s, s.flying[0]))
  }

  lemma StepKeepsRide(s: Protocol, e: Step)
    requires MarkerRides(s) && Enabled(s, e) && (e.Build? ==> s.flying == []) && !Disturbs(s, e)
    ensures MarkerRides(Next(s, e))
  {
    match e
    case SetId(_) =>
    case SetMap(_) =>
    case Build => assert Next(s, e).flying == [NextBeat(s.p)];
    case Ack(i) => assert Next(s, e).flying == [];
    case Lose(i) => assert Next(s, e).flying == [];
  }

  lemma {:induction false} RunKeepsRide(s: Protocol, run: seq<Step>)
    requires MarkerRides(s) && Possible(s, run) && Serial(s, run) && Undisturbed(s, run)
    ensures MarkerRides(After(s, run))
    decreases |run|
  {
    if run != [] {
      StepKeepsRide(s, run[0]);
      RunKeepsRide(Next(s, run[0]), run[1..]);
    }
  }

  /**
   * With one beat at a time and no such login, the acknowledged beat carried the pending marker: it
   * names it and was built since it was stamped.
   */
  lemma ClearingAckCarriedMarker(provisional: string, run: seq<Step>, i: nat)
    requires var s := Start(provisional); Possible(s, run) && Serial(s, run) && Undisturbed(s, run)
    requires var t := After(Start(provisional), run);
             i < |t.flying| && t.p.pendingPrior != "" && Next(t, Ack(i)).p.pendingPrior == ""
    ensures var t := After(Start(provisional), run);
            CarriesMarker(t, t.flying[i]) && t.flying[i].prior == t.p.pendingPrior
  {
    RunKeepsRide(Start(provisional), run);
    RunKeepsMarkers(Start(provisional), run, provisional);
    AckClearsMarker(provisional, run, i);
  }

  // ------------------------------------------------- what the conditions are for

  lemma EmptyMap()
    ensures Clamp([]) == [] && Canonical([]) == NO_METADATA
  {
    assert UserMetadata.FirstSeen([]) == [];
    UserMetadata.CanonicalEmpty([]);
  }

  /**
   * Any map at all: carried by a beat that is lost, then cleared before the next beat, it is taken as
   * known once that empty-handed beat is acknowledged, and setting it again is never sent. The beats
   * do not overlap.
   */
  lemma LostMapIsCommitted(provisional: string, pairs: seq<Pair>)
    requires Clamp(pairs) != []
    ensures var lost := Next(Next(Next(Start(provisional), SetMap(pairs)), Build), Lose(0));
            var acked := Next(Next(Next(lost, SetMap([])), Build), Ack(0));
            var t := Next(acked, SetMap(pairs));
            && lost.built[0].carried == Some(Canonical(Clamp(pairs)))
            && t.flying == [] && t.delivered == NO_METADATA != Canonical(t.p.entries)
            && NextBeat(t.p).carried == None
  {
    EmptyMap();
    UserMetadata.ClampBounds(pairs);
    UserMetadata.CanonicalEmpty(Clamp(pairs));
    CanonicalIsText(Clamp(pairs));
  }

  /** With two beats under way the first acknowledgement commits the second beat's map. */
  lemma OverlappingBeatsCommitTooMuch(provisional: string, a: seq<Pair>, b: seq<Pair>)
    requires Clamp(a) != [] && Clamp(b) != [] && Clamp(a) != Clamp(b)
    ensures var first := Next(Next(Start(provisional), SetMap(a)), Build);
            var both := Next(Next(first, SetMap(b)), Build);
            var t := Next(both, Ack(0));
            && t.delivered == Canonical(Clamp(a)) && t.p.lastAcked == Canonical(Clamp(b)) != t.delivered
  {
    UserMetadata.ClampBounds(a);
    UserMetadata.ClampBounds(b);
    UserMetadata.CanonicalEmpty(Clamp(a));
    UserMetadata.CanonicalEmpty(Clamp(b));
    UserMetadata.CanonicalDetectsChange(a, b);
    CanonicalIsText(Clamp(b));
  }

  /** A first login whose only beat is lost: the marker stays pending, and its slot filled. */
  lemma LostLoginBeat(provisional: string, first: string)
    requires provisional != "" && first != "" && first != provisional
    ensures var lost := Next(Next(Next(Start(provisional), SetId(first)), Build), Lose(0));
            && lost.flying == [] && lost.p.provisional == provisional && lost.p.userId == first
            && lost.p.priorInFlight == provisional
  {
  }

  lemma StaleSlotClears(s: Protocol, second: string)
    requires s.flying == [] && s.p.priorInFlight == s.p.provisional != ""
    requires s.p.userId != "" && second != "" && second != s.p.provisional
    ensures var flying := Next(Next(s, SetId("")), Build);
            var again := Next(flying, SetId(second));
            && flying.flying[0].prior == "" && again.p.pendingPrior == s.p.provisional
            && Next(again, Ack(0)).p.pendingPrior == ""
  {
  }

  /**
   * From the start: the first login's beat is lost, then a logout and a login fall around a beat. The
   * marker of the second login is cleared by that beat, which carried none, and was never delivered.
   */
  lemma LoginDuringBeatLosesMarker(provisional: string, first: string, second: string)
    requires provisional != "" && first != "" && first != provisional && second != "" && second != provisional
    ensures var lost := Next(Next(Next(Start(provisional), SetId(first)), Build), Lose(0));
            var flying := Next(Next(lost, SetId("")), Build);
            var again := Next(flying, SetId(second));
            && lost.flying == [] && flying.flying[0].prior == "" && again.p.pendingPrior == provisional
            && Next(again, Ack(0)).p.pendingPrior == ""
  {
    LostLoginBeat(provisional, first);
    StaleSlotClears(Next(Next(Next(Start(provisional), SetId(first)), Build), Lose(0)), second);
  }

  /**
   * The same without a lost beat: the second login is stamped while the first login's beat is under
   * way, and that beat's acknowledgement clears it. No beat ever carries the second login's marker.
   */
  lemma EarlierLoginClearsMarker(provisional: string, first: string, second: string)
    requires provisional != "" && first != "" && first != provisional && second != "" && second != provisional
    ensures var flying := Next(Next(Start(provisional), SetId(first)), Build);
            var again := Next(Next(flying, SetId("")), SetId(second));
            var t := Next(again, Ack(0));
            && flying.flying == [flying.built[0]] == flying.built && flying.built[0].userId == first && again.flying == flying.flying
            && again.p.pendingPrior == provisional == again.flying[0].prior && !CarriesMarker(again, again.flying[0])
            && t.p.pendingPrior == "" && t.built == flying.built && NextBeat(t.p).userId == second && NextBeat(t.p).prior == ""
  {
  }
}
