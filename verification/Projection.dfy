/** What a viewer may see of durable events and command results: private fields are removed at every
    depth, ballots are reduced to their poll, and owner-only events keep nothing but their place. */
module Projection {
  import opened Wrappers

  /** An object key. The keys that projection itself speaks of have a constructor each; every other
      text is `Named`. */
  datatype Key =
    | Version | Id | Seq | CreatedAt | RoomId | Type | ActorKey | ParticipantId | ParticipantType | ActorId | ActorType
    | DisplayName | Content | MessageKind | Visibility | Audience | OwnerId | VoteId
    | Named(name: string)

  /** A JSON value; objects are finite maps. */
  datatype Value =
    | Null
    | Bool(b: bool)
    | Int(i: int)
    | Real(digits: string)
    | Text(s: string)
    | Array(items: seq<Value>)
    | Object(fields: map<Key, Value>)

  datatype Principal = Principal(principalId: string, participantId: string)

  /** Reading and writing timestamps: the written form of a time is read back as that time. */
  datatype Clock = Clock(parse: string -> Option<int>, format: int -> string) {
    ghost predicate Lawful() { forall t :: parse(format(t)) == Some(t) }
  }

  const PRIVATE_PUBLIC_KEYS: seq<string> := [
    "absolute_path", "active_source_event_id", "argv", "bridge_handle_id", "bridge_pid", "command_configured",
    "config_path", "credentials", "env", "executable", "executable_identity", "file_path", "inflight_event_ids",
    "inflight_inputs", "lifecycle_intent_action", "lifecycle_intent_id", "lifecycle_intent_status", "path",
    "pending_event_ids", "pending_event_observation_kinds", "pending_inputs", "pid", "provider_endpoint",
    "provider_observation_kind", "provider_session_id", "provider_turn_id", "reactivation_operation_id",
    "reported_provider_pid", "resolved_executable", "room_publication_digest", "room_publication_proof",
    "room_publication_turn_id", "runtime_handle_id", "runtime_lease_token", "runtime_owner_id",
    "runtime_profile_key", "runtime_profile_version", "stderr_path", "stderr_tail", "stdout_path", "terminal_tail",
    "ticket", "token", "workspace", "workspace_identity", "write_budget_stream_bytes",
    "write_budget_stream_commands", "write_budget_turn_id"]

  predicate IsPrivate(key: Key) { key.Named? && key.name in PRIVATE_PUBLIC_KEYS }

  const EVENT_FIELDS := {
    Version, Id, Seq, CreatedAt, RoomId, Type, ActorKey, ParticipantId, ParticipantType, ActorId, ActorType,
    DisplayName, Content, MessageKind}

  predicate IsField(key: Key) { key in EVENT_FIELDS }

  // ---------------------------------------------------------------- events

  datatype Actor = Actor(participantId: string, participantType: string)

  datatype RoomEvent = RoomEvent(
    v: int,
    id: string,
    number: int,
    createdAt: int,
    roomId: string,
    kind: string,
    actor: Actor,
    participantId: Option<string>,
    participantType: Option<string>,
    actorId: Option<string>,
    actorType: Option<string>,
    displayName: Option<string>,
    content: Option<string>,
    messageKind: Option<string>,
    extra: map<Key, Value>)

  predicate InU32(n: int) { 0 <= n < 0x1_0000_0000 }
  predicate InI64(n: int) { -0x8000_0000_0000_0000 <= n < 0x8000_0000_0000_0000 }

  ghost predicate EventOk(e: RoomEvent) {
    InU32(e.v) && InI64(e.number) && forall k | k in e.extra :: !IsField(k)
  }

  function TextAt(f: map<Key, Value>, k: Key): Option<string> {
    if k in f && f[k].Text? then Some(f[k].s) else None
  }

  function IntAt(f: map<Key, Value>, k: Key): Option<int> {
    if k in f && f[k].Int? then Some(f[k].i) else None
  }

  /** An optional text: absent and null read as nothing, anything but text is an error. */
  function OptionalAt(f: map<Key, Value>, k: Key): Option<Option<string>> {
    if k !in f || f[k].Null? then Some(None)
    else if f[k].Text? then Some(Some(f[k].s))
    else None
  }

  /** An actor is read from an object with both texts, or from an array of just the two. */
  function ActorOf(v: Value): Option<Actor> {
    match v
    case Object(f) =>
      var id, kind := TextAt(f, ParticipantId), TextAt(f, ParticipantType);
      if id.Some? && kind.Some? then Some(Actor(id.value, kind.value)) else None
    case Array(items) =>
      if |items| == 2 && items[0].Text? && items[1].Text? then Some(Actor(items[0].s, items[1].s)) else None
    case _ => None
  }

  predicate IsEvent(c: Clock, v: Value) {
    v.Object? &&
    var f := v.fields;
    var version, number, created := IntAt(f, Version), IntAt(f, Seq), TextAt(f, CreatedAt);
    && version.Some? && InU32(version.value) && number.Some? && InI64(number.value)
    && TextAt(f, Id).Some? && TextAt(f, RoomId).Some? && TextAt(f, Type).Some?
    && created.Some? && c.parse(created.value).Some?
    && ActorKey in f && ActorOf(f[ActorKey]).Some?
    && OptionalAt(f, ParticipantId).Some? && OptionalAt(f, ParticipantType).Some?
    && OptionalAt(f, ActorId).Some? && OptionalAt(f, ActorType).Some?
    && OptionalAt(f, DisplayName).Some? && OptionalAt(f, Content).Some? && OptionalAt(f, MessageKind).Some?
  }

  function Decode(c: Clock, v: Value): (e: RoomEvent)
    requires IsEvent(c, v)
    ensures EventOk(e)
  {
    var f := v.fields;
    RoomEvent(IntAt(f, Version).value, TextAt(f, Id).value, IntAt(f, Seq).value,
              c.parse(TextAt(f, CreatedAt).value).value, TextAt(f, RoomId).value, TextAt(f, Type).value,
              ActorOf(f[ActorKey]).value, OptionalAt(f, ParticipantId).value, OptionalAt(f, ParticipantType).value,
              OptionalAt(f, ActorId).value, OptionalAt(f, ActorType).value, OptionalAt(f, DisplayName).value,
              OptionalAt(f, Content).value, OptionalAt(f, MessageKind).value,
              map k | k in f && !IsField(k) :: f[k])
  }

  function OptionalText(o: Option<string>): Option<Value> {
    if o.Some? then Some(Text(o.value)) else None
  }

  function EncodeActor(a: Actor): Value {
    Object(map[ParticipantId := Text(a.participantId), ParticipantType := Text(a.participantType)])
  }

  /** What an event writes under one of its own fields; an absent optional text writes nothing. */
  function FieldValue(c: Clock, e: RoomEvent, k: Key): Option<Value> {
    match k
    case Version => Some(Int(e.v))
    case Id => Some(Text(e.id))
    case Seq => Some(Int(e.number))
    case CreatedAt => Some(Text(c.format(e.createdAt)))
    case RoomId => Some(Text(e.roomId))
    case Type => Some(Text(e.kind))
    case ActorKey => Some(EncodeActor(e.actor))
    case ParticipantId => OptionalText(e.participantId)
    case ParticipantType => OptionalText(e.participantType)
    case ActorId => OptionalText(e.actorId)
    case ActorType => OptionalText(e.actorType)
    case DisplayName => OptionalText(e.displayName)
    case Content => OptionalText(e.content)
    case MessageKind => OptionalText(e.messageKind)
    case _ => None
  }

  function Encode(c: Clock, e: RoomEvent): Value {
    Object(e.extra + map k | k in EVENT_FIELDS && FieldValue(c, e, k).Some? :: FieldValue(c, e, k).value)
  }

  lemma EncodedField(c: Clock, e: RoomEvent, k: Key)
    requires EventOk(e)
    ensures var f := Encode(c, e).fields;
      if IsField(k)
      then (k in f <==> FieldValue(c, e, k).Some?) && (k in f ==> f[k] == FieldValue(c, e, k).value)
      else (k in f <==> k in e.extra) && (k in f ==> f[k] == e.extra[k])
  {
  }

  lemma EncodedFields(c: Clock, e: RoomEvent)
    requires EventOk(e)
    ensures var f := Encode(c, e).fields;
      && IntAt(f, Version) == Some(e.v) && TextAt(f, Id) == Some(e.id) && IntAt(f, Seq) == Some(e.number)
      && TextAt(f, CreatedAt) == Some(c.format(e.createdAt)) && TextAt(f, RoomId) == Some(e.roomId)
      && TextAt(f, Type) == Some(e.kind) && ActorKey in f && ActorOf(f[ActorKey]) == Some(e.actor)
  {
    hide Encode;
    EncodedField(c, e, Version); EncodedField(c, e, Id); EncodedField(c, e, Seq); EncodedField(c, e, CreatedAt);
    EncodedField(c, e, RoomId); EncodedField(c, e, Type); EncodedField(c, e, ActorKey);
  }

  lemma EncodedOptionals(c: Clock, e: RoomEvent)
    requires EventOk(e)
    ensures var f := Encode(c, e).fields;
      && OptionalAt(f, ParticipantId) == Some(e.participantId) &&
        OptionalAt(f, ParticipantType) == Some(e.participantType)
      && OptionalAt(f, ActorId) == Some(e.actorId) && OptionalAt(f, ActorType) == Some(e.actorType)
      && OptionalAt(f, DisplayName) == Some(e.displayName) && OptionalAt(f, Content) == Some(e.content)
      && OptionalAt(f, MessageKind) == Some(e.messageKind)
  {
    hide Encode;
    EncodedField(c, e, ParticipantId); EncodedField(c, e, ParticipantType); EncodedField(c, e, ActorId);
    EncodedField(c, e, ActorType); EncodedField(c, e, DisplayName); EncodedField(c, e, Content);
    EncodedField(c, e, MessageKind);
  }

  /** Encoding an event and reading it again gives the same event. */
  lemma DecodeEncode(c: Clock, e: RoomEvent)
    requires c.Lawful() && EventOk(e)
    ensures IsEvent(c, Encode(c, e)) && Decode(c, Encode(c, e)) == e
  {
    var f := Encode(c, e).fields;
    assert (map k | k in f && !IsField(k) :: f[k]) == e.extra by {
      forall k ensures k in f && !IsField(k) <==> k in e.extra { EncodedField(c, e, k); }
    }
    hide Encode, TextAt, IntAt, OptionalAt, ActorOf, IsField, FieldValue;
    EncodedFields(c, e);
    EncodedOptionals(c, e);
  }

  /** Two objects with the same readings of every field, and the same other fields, are the same event. */
  lemma ReadAlike(c: Clock, f: map<Key, Value>, g: map<Key, Value>)
    requires IsEvent(c, Object(f)) && ActorKey in g && ActorOf(g[ActorKey]) == ActorOf(f[ActorKey])
    requires forall x | x in {Id, CreatedAt, RoomId, Type} :: TextAt(g, x) == TextAt(f, x)
    requires forall x | x in {Version, Seq} :: IntAt(g, x) == IntAt(f, x)
    requires forall x | x in {ParticipantId, ParticipantType, ActorId, ActorType, DisplayName, Content, MessageKind} ::
      OptionalAt(g, x) == OptionalAt(f, x)
    requires forall x | !IsField(x) :: (x in g <==> x in f) && (x in f ==> g[x] == f[x])
    ensures IsEvent(c, Object(g)) && Decode(c, Object(g)) == Decode(c, Object(f))
  {
    assert (map x | x in g && !IsField(x) :: g[x]) == map x | x in f && !IsField(x) :: f[x];
    hide TextAt, IntAt, OptionalAt, ActorOf, IsField;
  }

  lemma Elsewhere(f: map<Key, Value>, k: Key, w: Value)
    ensures forall x | x != k :: TextAt(f[k := w], x) == TextAt(f, x) && IntAt(f[k := w], x) == IntAt(f, x)
    ensures forall x | x != k :: OptionalAt(f[k := w], x) == OptionalAt(f, x)
    ensures k !in f && w.Null? ==> OptionalAt(f[k := w], k) == OptionalAt(f, k)
  {
  }

  /** An event is read as well when a text it does not have is given as null, or its actor as a pair. */
  lemma NullIsRead(c: Clock, e: RoomEvent, k: Key)
    requires c.Lawful() && EventOk(e) && FieldValue(c, e, k).None?
    requires k in {ParticipantId, ParticipantType, ActorId, ActorType, DisplayName, Content, MessageKind}
    ensures var v := Object(Encode(c, e).fields[k := Null]); IsEvent(c, v) && Decode(c, v) == e
  {
    var f := Encode(c, e).fields;
    hide Encode, FieldValue, IsEvent, Decode, ActorOf, TextAt, IntAt, OptionalAt, EventOk;
    DecodeEncode(c, e);
    EncodedFields(c, e);
    EncodedField(c, e, k);
    NullChangesNothing(c, f, k);
  }

  lemma NullChangesNothing(c: Clock, f: map<Key, Value>, k: Key)
    requires IsEvent(c, Object(f)) && ActorKey in f && k !in f
    requires k in {ParticipantId, ParticipantType, ActorId, ActorType, DisplayName, Content, MessageKind}
    ensures IsEvent(c, Object(f[k := Null])) && Decode(c, Object(f[k := Null])) == Decode(c, Object(f))
  {
    hide IsEvent, Decode, ActorOf, TextAt, IntAt, OptionalAt;
    Elsewhere(f, k, Null);
    ReadAlike(c, f, f[k := Null]);
  }

  lemma PairIsRead(c: Clock, e: RoomEvent)
    requires c.Lawful() && EventOk(e)
    ensures var pair := Array([Text(e.actor.participantId), Text(e.actor.participantType)]);
      var v := Object(Encode(c, e).fields[ActorKey := pair]); IsEvent(c, v) && Decode(c, v) == e
  {
    var f := Encode(c, e).fields;
    DecodeEncode(c, e);
    EncodedFields(c, e);
    var pair := Array([Text(e.actor.participantId), Text(e.actor.participantType)]);
    assert ActorOf(pair) == Some(e.actor);
    hide Encode, FieldValue, IsEvent, Decode, ActorOf, TextAt, IntAt, OptionalAt;
    Elsewhere(f, ActorKey, pair);
    ReadAlike(c, f, f[ActorKey := pair]);
  }

  // ---------------------------------------------------------------- projecting one event

  function ProjectValue(v: Value): Value {
    match v
    case Array(items) => Array(seq(|items|, i requires 0 <= i < |items| => ProjectValue(items[i])))
    case Object(fields) => Object(map k | k in fields && !IsPrivate(k) :: ProjectValue(fields[k]))
    case _ => v
  }

  predicate OwnerOnly(e: RoomEvent) {
    TextAt(e.extra, Visibility) == Some("owner") || TextAt(e.extra, Audience) == Some("owner")
  }

  predicate VisibleTo(e: RoomEvent, p: Principal) {
    var participant := if e.participantId.Some? then e.participantId.value else "";
    var owner := if TextAt(e.extra, OwnerId).Some? then TextAt(e.extra, OwnerId).value else "";
    || (participant != "" && (participant == p.principalId || participant == p.participantId))
    || (owner != "" && (owner == p.principalId || owner == p.participantId))
  }

  predicate PrivateBallot(e: RoomEvent) {
    e.messageKind in {Some("vote_cast"), Some("vote_withdraw"), Some("vote_close")}
  }

  /** A ballot keeps only its place and its poll. */
  function MinimizedVote(e: RoomEvent): RoomEvent {
    if !PrivateBallot(e) then e
    else e.(actor := Actor("", ""), participantId := None, participantType := None, actorId := None, actorType := None,
            displayName := None, content := Some(""), extra := map k | k in e.extra && k == VoteId :: e.extra[k])
  }

  function Hidden(e: RoomEvent): RoomEvent {
    RoomEvent(e.v, e.id, e.number, e.createdAt, e.roomId, "event_hidden", Actor("", ""), None, None, None, None, None,
              None, None, map[Visibility := Text("owner")])
  }

  function Redacted(e: RoomEvent): RoomEvent {
    MinimizedVote(e.(extra := map k | k in e.extra && !IsPrivate(k) :: ProjectValue(e.extra[k])))
  }

  /** One event for one viewer. */
  function PublicEvent(e: RoomEvent, p: Principal): RoomEvent {
    var r := Redacted(e);
    if !OwnerOnly(r) then r
    else if VisibleTo(r, p) then r.(extra := (r.extra - {Audience})[Visibility := Text("owner")])
    else Hidden(r)
  }

  /** A command result for one viewer: embedded events are projected, private keys dropped everywhere. */
  function PublicValue(c: Clock, v: Value, p: Principal): Value {
    if IsEvent(c, v) then Encode(c, PublicEvent(Decode(c, v), p))
    else match v
      case Array(items) => Array(seq(|items|, i requires 0 <= i < |items| => PublicValue(c, items[i], p)))
      case Object(fields) => Object(map k | k in fields && !IsPrivate(k) :: PublicValue(c, fields[k], p))
      case _ => v
  }

  // ---------------------------------------------------------------- what is shown of an event

  /** The event says that it is for its owner only. */
  predicate SaysOwner(e: RoomEvent) {
    || (Visibility in e.extra && e.extra[Visibility] == Text("owner"))
    || (Audience in e.extra && e.extra[Audience] == Text("owner"))
  }

  /** The viewer is one of those the event names: its participant, or who it says owns it. */
  predicate Owns(e: RoomEvent, p: Principal) {
    || (e.participantId.Some? && e.participantId.value != "" &&
        e.participantId.value in {p.principalId, p.participantId})
    || (OwnerId in e.extra && e.extra[OwnerId].Text? && e.extra[OwnerId].s != "" &&
        e.extra[OwnerId].s in {p.principalId, p.participantId})
  }

  predicate IsBallot(e: RoomEvent) {
    e.messageKind.Some? && e.messageKind.value in {"vote_cast", "vote_withdraw", "vote_close"}
  }

  predicate NoText(e: RoomEvent) {
    e.participantId.None? && e.participantType.None? && e.actorId.None? && e.actorType.None? && e.displayName.None?
  }

  /** A value without its private fields, at any depth, and else as it is. */
  ghost predicate Kept(v: Value, w: Value) {
    match v
    case Array(items) => w.Array? && |w.items| == |items| && forall i | 0 <= i < |items| :: Kept(items[i], w.items[i])
    case Object(fields) =>
      && w.Object? && (forall k :: k in w.fields <==> k in fields && !IsPrivate(k))
      && forall k | k in fields && !IsPrivate(k) :: Kept(fields[k], w.fields[k])
    case _ => w == v
  }

  /** What a viewer is shown of an event: its place always; of a ballot its poll and nothing else; of an event for
      its owner nothing, unless the viewer is the owner; and of anything else, all but its private fields. */
  ghost predicate EventShown(e: RoomEvent, q: RoomEvent, p: Principal) {
    && SamePlace(e, q)
    && if IsBallot(e) then
         && q.kind == e.kind && q.messageKind == e.messageKind && q.actor == Actor("", "") && NoText(q)
         && q.content == Some("")
         && (forall k :: k in q.extra <==> k == VoteId && k in e.extra)
         && (VoteId in e.extra ==> Kept(e.extra[VoteId], q.extra[VoteId]))
       else if SaysOwner(e) && !Owns(e, p) then
         && q.kind == "event_hidden" && q.messageKind.None? && q.actor == Actor("", "") && NoText(q) && q.content.None?
         && q.extra == map[Visibility := Text("owner")]
       else
         && q.kind == e.kind && q.messageKind == e.messageKind && q.actor == e.actor && q.content == e.content
         && q.participantId == e.participantId && q.participantType == e.participantType && q.actorId == e.actorId
         && q.actorType == e.actorType && q.displayName == e.displayName
         && (forall k | k !in {Visibility, Audience} ::
               (k in q.extra <==> k in e.extra && !IsPrivate(k)) && (k in q.extra ==> Kept(e.extra[k], q.extra[k])))
         && if SaysOwner(e) then Audience !in q.extra && Visibility in q.extra && q.extra[Visibility] == Text("owner")
            else forall k | k in {Visibility, Audience} ::
                   (k in q.extra <==> k in e.extra) && (k in e.extra ==> Kept(e.extra[k], q.extra[k]))
  }

  lemma {:induction false} ProjectionKeeps(v: Value)
    ensures Kept(v, ProjectValue(v))
  {
    match v
    case Array(items) =>
      forall i | 0 <= i < |items| ensures Kept(items[i], ProjectValue(items[i])) { ProjectionKeeps(items[i]); }
    case Object(fields) =>
      forall k | k in fields ensures Kept(fields[k], ProjectValue(fields[k])) { ProjectionKeeps(fields[k]); }
    case _ =>
  }

  /** The private keys are the listed names; the keys of an event and of its visibility are not among them. */
  lemma PrivateMeansListed(k: Key)
    ensures IsPrivate(k) <==> match k case Named(name) => name in PRIVATE_PUBLIC_KEYS case _ => false
  {
  }

  /** Redaction leaves alone what decides who may see an event. */
  lemma RedactionKeepsOwner(e: RoomEvent, p: Principal)
    ensures PrivateBallot(e) <==> IsBallot(e)
    ensures IsBallot(e) ==> !OwnerOnly(Redacted(e))
    ensures !IsBallot(e) ==> (OwnerOnly(Redacted(e)) <==> SaysOwner(e)) && (VisibleTo(Redacted(e), p) <==> Owns(e, p))
  {
  }

  /** Every event is shown to every viewer as it should be. */
  lemma EventIsShown(e: RoomEvent, p: Principal)
    ensures EventShown(e, PublicEvent(e, p), p)
  {
    hide VisibleTo, OwnerOnly, Owns, SaysOwner, ProjectValue, Kept;
    RedactionKeepsOwner(e, p);
    forall k | k in e.extra ensures Kept(e.extra[k], ProjectValue(e.extra[k])) { ProjectionKeeps(e.extra[k]); }
  }

  // ---------------------------------------------------------------- nothing private is left

  ghost predicate Clean(v: Value) {
    match v
    case Array(items) => forall i | 0 <= i < |items| :: Clean(items[i])
    case Object(fields) => forall k | k in fields :: !IsPrivate(k) && Clean(fields[k])
    case _ => true
  }

  lemma {:induction false} ProjectValueCleans(v: Value)
    ensures Clean(ProjectValue(v)) && ProjectValue(ProjectValue(v)) == ProjectValue(v)
  {
    match v
    case Array(items) =>
      forall i | 0 <= i < |items|
        ensures Clean(ProjectValue(items[i])) && ProjectValue(ProjectValue(items[i])) == ProjectValue(items[i])
      {
        ProjectValueCleans(items[i]);
      }
    case Object(fields) =>
      forall k | k in fields
        ensures Clean(ProjectValue(fields[k])) && ProjectValue(ProjectValue(fields[k])) == ProjectValue(fields[k])
      {
        ProjectValueCleans(fields[k]);
      }
      assert ProjectValue(ProjectValue(v)).fields == ProjectValue(v).fields;
    case _ =>
  }

  lemma {:induction false} CleanStays(v: Value)
    requires Clean(v)
    ensures ProjectValue(v) == v
  {
    match v
    case Array(items) =>
      forall i | 0 <= i < |items| ensures ProjectValue(items[i]) == items[i] { CleanStays(items[i]); }
    case Object(fields) =>
      forall k | k in fields ensures ProjectValue(fields[k]) == fields[k] { CleanStays(fields[k]); }
      assert ProjectValue(v).fields == fields;
    case _ =>
  }

  ghost predicate CleanExtra(e: RoomEvent) {
    forall k | k in e.extra :: !IsPrivate(k) && Clean(e.extra[k])
  }

  /** A projected event keeps its place and the shape of an event, holds nothing private, and is left as it
      is when it is projected again for the same viewer. */
  lemma PublicEventIsFinal(e: RoomEvent, p: Principal)
    requires EventOk(e)
    ensures var q := PublicEvent(e, p);
      && EventOk(q) && CleanExtra(q)
      && q.id == e.id && q.number == e.number && q.roomId == e.roomId && q.createdAt == e.createdAt
      && PublicEvent(q, p) == q
  {
    hide Redacted, MinimizedVote, CleanExtra;
    var r, q := Redacted(e), PublicEvent(e, p);
    RedactedFacts(e);
    if !OwnerOnly(r) {
      RedactedIsFinal(r);
    } else if VisibleTo(r, p) {
      OwnerShown(r, p);
      RedactedIsFinal(q);
      assert (q.extra - {Audience})[Visibility := Text("owner")] == q.extra;
    } else {
      HiddenFacts(r, p);
      RedactedIsFinal(q);
    }
  }

  lemma RedactedFacts(e: RoomEvent)
    requires EventOk(e)
    ensures var r := Redacted(e);
      && EventOk(r) && CleanExtra(r) && (PrivateBallot(r) ==> MinimizedVote(r) == r)
      && r.id == e.id && r.number == e.number && r.roomId == e.roomId && r.createdAt == e.createdAt
  {
    forall k | k in e.extra ensures Clean(ProjectValue(e.extra[k])) { ProjectValueCleans(e.extra[k]); }
    var r := Redacted(e);
    if PrivateBallot(r) { assert (map k | k in r.extra && k == VoteId :: r.extra[k]) == r.extra; }
  }

  lemma BallotIsNotOwnerOnly(r: RoomEvent)
    requires MinimizedVote(r) == r
    ensures PrivateBallot(r) ==> !OwnerOnly(r)
  {
    if PrivateBallot(r) { assert forall k | k in r.extra :: k in MinimizedVote(r).extra; }
  }

  /** An owner-only event is no ballot, and its owner still owns what is shown. */
  lemma OwnerShown(r: RoomEvent, p: Principal)
    requires EventOk(r) && CleanExtra(r) && OwnerOnly(r) && VisibleTo(r, p) &&
      (PrivateBallot(r) ==> MinimizedVote(r) == r)
    ensures var q := r.(extra := (r.extra - {Audience})[Visibility := Text("owner")]);
      EventOk(q) && CleanExtra(q) && OwnerOnly(q) && VisibleTo(q, p) && !PrivateBallot(q)
  {
    hide ProjectValue;
    if r == MinimizedVote(r) { BallotIsNotOwnerOnly(r); }
  }

  lemma HiddenFacts(r: RoomEvent, p: Principal)
    requires EventOk(r)
    ensures var q := Hidden(r);
      EventOk(q) && CleanExtra(q) && OwnerOnly(q) && !VisibleTo(q, p) && !PrivateBallot(q) && Hidden(q) == q
  {
  }

  lemma RedactedIsFinal(e: RoomEvent)
    requires CleanExtra(e)
    requires PrivateBallot(e) ==> MinimizedVote(e) == e
    ensures Redacted(e) == e
  {
    forall k | k in e.extra ensures ProjectValue(e.extra[k]) == e.extra[k] { CleanStays(e.extra[k]); }
    assert (map k | k in e.extra && !IsPrivate(k) :: ProjectValue(e.extra[k])) == e.extra;
  }

  predicate SamePlace(e: RoomEvent, f: RoomEvent) {
    && e.v == f.v && e.id == f.id && e.number == f.number && e.createdAt == f.createdAt && e.roomId == f.roomId
  }

  predicate SamePoll(e: RoomEvent, f: RoomEvent) {
    (VoteId in e.extra <==> VoteId in f.extra) && (VoteId in e.extra ==> e.extra[VoteId] == f.extra[VoteId])
  }

  /** Nobody can tell two ballots of one poll apart but by their place: neither who cast them nor for what. */
  lemma BallotsLookAlike(e: RoomEvent, f: RoomEvent, p: Principal)
    requires IsBallot(e) && e.messageKind == f.messageKind && e.kind == f.kind && SamePlace(e, f) && SamePoll(e, f)
    ensures PublicEvent(e, p) == PublicEvent(f, p)
  {
    hide ProjectValue;
    assert Redacted(e).extra == Redacted(f).extra;
  }

  /** The viewer is none of those this event is for. */
  predicate IsForOthers(e: RoomEvent, p: Principal) { !IsBallot(e) && SaysOwner(e) && !Owns(e, p) }

  /** Whoever does not own them cannot tell two owner-only events apart but by their place. */
  lemma OwnedLookAlike(e: RoomEvent, f: RoomEvent, p: Principal)
    requires SamePlace(e, f) && IsForOthers(e, p) && IsForOthers(f, p)
    ensures PublicEvent(e, p) == PublicEvent(f, p)
  {
    hide ProjectValue, OwnerOnly, VisibleTo, SaysOwner, Owns;
    RedactionKeepsOwner(e, p);
    RedactionKeepsOwner(f, p);
  }

  lemma EncodedIsClean(c: Clock, e: RoomEvent)
    requires EventOk(e) && CleanExtra(e)
    ensures Clean(Encode(c, e))
  {
    hide FieldValue, IsField, IsPrivate, EventOk;
    var f := Encode(c, e).fields;
    forall k | k in f ensures !IsPrivate(k) && Clean(f[k]) {
      EncodedField(c, e, k);
      if IsField(k) { FieldIsClean(c, e, k); }
    }
  }

  lemma FieldIsClean(c: Clock, e: RoomEvent, k: Key)
    requires IsField(k) && FieldValue(c, e, k).Some?
    ensures !IsPrivate(k) && Clean(FieldValue(c, e, k).value)
  {
  }

  /** A projected value has no private key at any depth. */
  lemma {:induction false} PublicValueIsClean(c: Clock, v: Value, p: Principal)
    ensures Clean(PublicValue(c, v, p))
  {
    if IsEvent(c, v) {
      PublicEventIsFinal(Decode(c, v), p);
      EncodedIsClean(c, PublicEvent(Decode(c, v), p));
    } else {
      match v
      case Array(items) =>
        forall i | 0 <= i < |items| ensures Clean(PublicValue(c, items[i], p)) { PublicValueIsClean(c, items[i], p); }
      case Object(fields) =>
        forall k | k in fields ensures Clean(PublicValue(c, fields[k], p)) { PublicValueIsClean(c, fields[k], p); }
      case _ =>
    }
  }

  /** An event stays an event with the same place in the room. */
  lemma PublicValueKeepsPlace(c: Clock, v: Value, p: Principal)
    requires c.Lawful() && IsEvent(c, v)
    ensures var q := PublicValue(c, v, p);
      && IsEvent(c, q) && Decode(c, q).id == Decode(c, v).id && Decode(c, q).number == Decode(c, v).number
      && Decode(c, q).roomId == Decode(c, v).roomId
  {
    PublicEventIsFinal(Decode(c, v), p);
    DecodeEncode(c, PublicEvent(Decode(c, v), p));
  }

  // ---------------------------------------------------------------- projecting twice

  /** Projection keeps the kind of a value, and every scalar as it is. */
  lemma SameShape(c: Clock, v: Value, p: Principal)
    ensures var q := PublicValue(c, v, p);
      && (v.Array? <==> q.Array?) && (v.Object? <==> q.Object?)
      && (!v.Array? && !v.Object? ==> q == v)
  {
  }

  /** Projection gives no value the look of an actor that it did not have. */
  lemma NoNewActor(c: Clock, v: Value, p: Principal)
    requires ActorOf(PublicValue(c, v, p)).Some?
    ensures ActorOf(v).Some?
  {
    SameShape(c, v, p);
    if IsEvent(c, v) {
      var e := PublicEvent(Decode(c, v), p);
      PublicEventIsFinal(Decode(c, v), p);
      EncodedOptionals(c, e);
    } else if v.Object? {
      SameTextAt(c, v, p, ParticipantId);
      SameTextAt(c, v, p, ParticipantType);
    } else if v.Array? && |v.items| == 2 {
      SameShape(c, v.items[0], p);
      SameShape(c, v.items[1], p);
    }
  }

  lemma SameTextAt(c: Clock, v: Value, p: Principal, k: Key)
    requires v.Object? && !IsEvent(c, v) && !IsPrivate(k)
    ensures var f, g := v.fields, PublicValue(c, v, p).fields;
      && TextAt(g, k) == TextAt(f, k) && IntAt(g, k) == IntAt(f, k) && OptionalAt(g, k) == OptionalAt(f, k)
      && (k in g <==> k in f) && (k in f ==> g[k] == PublicValue(c, f[k], p))
  {
    if k in v.fields { SameShape(c, v.fields[k], p); }
  }

  /** What was no event does not become one by being projected. */
  lemma NoNewEvent(c: Clock, v: Value, p: Principal)
    requires !IsEvent(c, v)
    ensures !IsEvent(c, PublicValue(c, v, p))
  {
    SameShape(c, v, p);
    hide PublicValue, ActorOf, TextAt, IntAt, OptionalAt;
    if v.Object? && IsEvent(c, PublicValue(c, v, p)) {
      SameTextAt(c, v, p, Version); SameTextAt(c, v, p, Id); SameTextAt(c, v, p, Seq); SameTextAt(c, v, p, CreatedAt);
      SameTextAt(c, v, p, RoomId); SameTextAt(c, v, p, Type); SameTextAt(c, v, p, ParticipantId);
      SameTextAt(c, v, p, ParticipantType); SameTextAt(c, v, p, ActorId); SameTextAt(c, v, p, ActorType);
      SameTextAt(c, v, p, DisplayName); SameTextAt(c, v, p, Content); SameTextAt(c, v, p, MessageKind);
      SameTextAt(c, v, p, ActorKey);
      NoNewActor(c, v.fields[ActorKey], p);
    }
  }

  /** Projecting again for the same viewer changes nothing. */
  lemma {:induction false} PublicValueIsFinal(c: Clock, v: Value, p: Principal)
    requires c.Lawful()
    ensures PublicValue(c, PublicValue(c, v, p), p) == PublicValue(c, v, p)
  {
    hide IsEvent, Decode, Encode, PublicEvent, IsPrivate;
    var q := PublicValue(c, v, p);
    if IsEvent(c, v) {
      PublicEventIsFinal(Decode(c, v), p);
      DecodeEncode(c, PublicEvent(Decode(c, v), p));
    } else {
      NoNewEvent(c, v, p);
      match v
      case Array(items) =>
        forall i | 0 <= i < |items|
          ensures PublicValue(c, PublicValue(c, items[i], p), p) == PublicValue(c, items[i], p)
        {
          PublicValueIsFinal(c, items[i], p);
        }
        assert PublicValue(c, q, p).items == q.items;
      case Object(fields) =>
        forall k | k in fields
          ensures PublicValue(c, PublicValue(c, fields[k], p), p) == PublicValue(c, fields[k], p)
        {
          PublicValueIsFinal(c, fields[k], p);
        }
        assert PublicValue(c, q, p).fields == q.fields;
      case _ =>
    }
  }

  // ---------------------------------------------------------------- what is shown of a value

  /** Every embedded event is shown as an event, private fields are gone at every depth, and else all is as it is. */
  ghost predicate ValueShown(c: Clock, v: Value, w: Value, p: Principal)
    decreases v
  {
    if IsEvent(c, v) then IsEvent(c, w) && EventShown(Decode(c, v), Decode(c, w), p)
    else match v
      case Array(items) =>
        w.Array? && |w.items| == |items| && forall i | 0 <= i < |items| :: ValueShown(c, items[i], w.items[i], p)
      case Object(fields) =>
        && w.Object? && (forall k :: k in w.fields <==> k in fields && !IsPrivate(k))
        && forall k | k in fields && !IsPrivate(k) :: ValueShown(c, fields[k], w.fields[k], p)
      case _ => w == v
  }

  /** Every value is shown to every viewer as it should be. */
  lemma {:induction false} ValueIsShown(c: Clock, v: Value, p: Principal)
    requires c.Lawful()
    ensures ValueShown(c, v, PublicValue(c, v, p), p)
    decreases v
  {
    hide EventShown, PublicEvent, IsEvent, IsPrivate;
    if IsEvent(c, v) {
      EventIsShown(Decode(c, v), p);
      PublicEventIsFinal(Decode(c, v), p);
      DecodeEncode(c, PublicEvent(Decode(c, v), p));
    } else {
      match v
      case Array(items) =>
        forall i | 0 <= i < |items| ensures ValueShown(c, items[i], PublicValue(c, items[i], p), p) {
          ValueIsShown(c, items[i], p);
        }
      case Object(fields) =>
        forall k | k in fields ensures ValueShown(c, fields[k], PublicValue(c, fields[k], p), p) {
          ValueIsShown(c, fields[k], p);
        }
      case _ =>
    }
  }

  // ---------------------------------------------------------------- what a viewer cannot tell apart

  /** Two events that differ only in what this viewer must not see: private fields, the voter and the choice of
      a ballot, or all but the place of an event that belongs to somebody else. */
  predicate EventsAlike(e: RoomEvent, f: RoomEvent, p: Principal) {
    || Redacted(e) == Redacted(f)
    || (IsBallot(e) && e.messageKind == f.messageKind && e.kind == f.kind && SamePlace(e, f) && SamePoll(e, f))
    || (SamePlace(e, f) && IsForOthers(e, p) && IsForOthers(f, p))
  }

  /** Two values that differ, at any depth, only in private fields and in events that look alike. */
  predicate LooksAlike(c: Clock, v: Value, w: Value, p: Principal)
    decreases v
  {
    if IsEvent(c, v) || IsEvent(c, w) then
      IsEvent(c, v) && IsEvent(c, w) && EventsAlike(Decode(c, v), Decode(c, w), p)
    else match v
      case Array(items) =>
        w.Array? && |items| == |w.items| && forall i | 0 <= i < |items| :: LooksAlike(c, items[i], w.items[i], p)
      case Object(fields) =>
        && w.Object?
        && (forall k | k in fields && !IsPrivate(k) :: k in w.fields && LooksAlike(c, fields[k], w.fields[k], p))
        && (forall k | k in w.fields && !IsPrivate(k) :: k in fields)
      case _ => w == v
  }

  lemma EventsProjectAlike(e: RoomEvent, f: RoomEvent, p: Principal)
    requires EventsAlike(e, f, p)
    ensures PublicEvent(e, p) == PublicEvent(f, p)
  {
    hide Redacted, SamePoll, OwnerOnly, VisibleTo, IsForOthers;
    if Redacted(e) == Redacted(f) {
    } else if IsBallot(e) && e.messageKind == f.messageKind && e.kind == f.kind && SamePlace(e, f) &&
      SamePoll(e, f) {
      BallotsLookAlike(e, f, p);
    } else {
      OwnedLookAlike(e, f, p);
    }
  }

  /** Values that look alike to a viewer project alike: nothing hidden shows, at any depth. */
  lemma {:induction false} ValuesProjectAlike(c: Clock, v: Value, w: Value, p: Principal)
    requires LooksAlike(c, v, w, p)
    ensures PublicValue(c, v, p) == PublicValue(c, w, p)
    decreases v
  {
    hide EventsAlike, PublicEvent, IsEvent, IsPrivate;
    if IsEvent(c, v) {
      EventsProjectAlike(Decode(c, v), Decode(c, w), p);
    } else {
      match v
      case Array(items) =>
        forall i | 0 <= i < |items| ensures PublicValue(c, items[i], p) == PublicValue(c, w.items[i], p) {
          ValuesProjectAlike(c, items[i], w.items[i], p);
        }
        assert PublicValue(c, v, p).items == PublicValue(c, w, p).items;
      case Object(fields) =>
        forall k | k in fields && !IsPrivate(k)
          ensures k in w.fields && PublicValue(c, fields[k], p) == PublicValue(c, w.fields[k], p)
        {
          ValuesProjectAlike(c, fields[k], w.fields[k], p);
        }
        assert PublicValue(c, v, p).fields == PublicValue(c, w, p).fields;
      case _ =>
    }
  }
}
