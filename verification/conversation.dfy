/** The turn snapshot an action reads (the tracker's latest message, entities and slots) and what
    an action produces: messages for the dispatcher, events for the tracker, and the HTTP requests
    it issues on the way. */
module Conversation {
  import opened Wrappers
  import opened Json
  import Strings
  import Moderation

  /** One extracted entity of the latest message. */
  datatype Entity = Entity(entityType: string, value: string)

  /** The parts of the tracker an action reads. `metadata` is the latest message's metadata map,
      absent when the message carried none; a slot that is unset is absent from `slots`. */
  datatype Context = Context(
    text: Option<string>,
    metadata: Option<map<string, Scalar>>,
    entities: seq<Entity>,
    slots: map<string, Scalar>)

  /** `utter_message(response=...)` or `utter_message(text=...)`. */
  datatype Message = Template(id: string) | Text(body: string)

  datatype Event = SlotSet(name: string, value: Option<Scalar>) | UserUtteranceReverted

  datatype HttpMethod = GET | POST

  /** One backend call: the path below the backend URL, the Authorization header if one is sent,
      and the JSON body fields of a POST. */
  datatype Request = Request(
    verb: HttpMethod,
    path: string,
    authorization: Option<string>,
    body: seq<(string, Scalar)>)

  /** What one run of an action amounts to: the messages dispatched (in order), the events it
      returns, and the backend requests it made (in order). */
  datatype Reply = Reply(messages: seq<Message>, events: seq<Event>, requests: seq<Request>)

  /** A run either returns or raises an exception that escapes the action. */
  datatype Outcome = Done(reply: Reply) | Raised(error: string)

  const ModerationWarningTemplate := "utter_moderation_warning"
  const NeedLoginTemplate := "utter_need_login"
  const OutOfScopeTemplate := "utter_out_of_scope"
  const HealthEffectsTemplate := "utter_health_effects"

  /** `get_auth_token`: the metadata's "token" entry, if the metadata is present and has one. */
  function AuthToken(ctx: Context): (t: Option<Scalar>)
    ensures t.Some? <==> ctx.metadata.Some? && "token" in ctx.metadata.value
    ensures t.Some? ==> t.value == ctx.metadata.value["token"]
  {
    match ctx.metadata
    case Some(md) => if md != map[] && "token" in md then Some(md["token"]) else None
    case None => None
  }

  /** The handlers' `if not token` gate passes: a token is present and truthy. */
  predicate LoggedIn(ctx: Context) {
    AuthToken(ctx).Some? && Truthy(AuthToken(ctx).value)
  }

  /** The header value `f"Bearer {token}"`. */
  function Bearer(ctx: Context): (h: string)
    requires LoggedIn(ctx)
    ensures |h| >= 7 && h[..7] == "Bearer "
  {
    "Bearer " + Render(AuthToken(ctx).value)
  }

  /** `tracker.get_slot(name)`. */
  function Slot(ctx: Context, name: string): (v: Option<Scalar>)
    ensures v.Some? <==> name in ctx.slots
    ensures v.Some? ==> v.value == ctx.slots[name]
  {
    if name in ctx.slots then Some(ctx.slots[name]) else None
  }

  /** The slot gate `if not value` passes: the slot is set to a truthy value. */
  predicate SlotFilled(ctx: Context, name: string) {
    Slot(ctx, name).Some? && Truthy(Slot(ctx, name).value)
  }

  /** `tracker.get_latest_entity_values(entityType)`, in extraction order. */
  function EntityValues(entities: seq<Entity>, entityType: string): (r: seq<string>)
    ensures |r| <= |entities|
    ensures forall v :: v in r <==> exists k :: 0 <= k < |entities| && entities[k] == Entity(entityType, v)
  {
    if |entities| == 0 then []
    else
      var rest := EntityValues(entities[1..], entityType);
      assert forall k :: 1 <= k < |entities| ==> entities[k] == entities[1..][k - 1];
      if entities[0].entityType == entityType then [entities[0].value] + rest else rest
  }

  /** One entity contributes its value exactly when it has the requested type. */
  lemma EntityValuesOne(e: Entity, entityType: string)
    ensures EntityValues([e], entityType) == if e.entityType == entityType then [e.value] else []
  {
    assert [e][1..] == [];
  }

  /** The values of a concatenation are the values of each part, in order, so every matching
      entity contributes one value at its own position. */
  lemma {:induction false} EntityValuesAppend(a: seq<Entity>, b: seq<Entity>, entityType: string)
    ensures EntityValues(a + b, entityType) == EntityValues(a, entityType) + EntityValues(b, entityType)
    decreases |a|
  {
    if |a| > 0 {
      assert (a + b)[1..] == a[1..] + b;
      assert (a + b)[0] == a[0];
      EntityValuesAppend(a[1..], b, entityType);
    } else {
      assert a + b == b;
    }
  }

  /** The moderation gate `if user_message and contains_inappropriate(user_message)`. */
  predicate Flagged(ctx: Context)
    ensures Flagged(ctx) <==>
      && ctx.text.Some? && ctx.text.value != ""
      && exists k :: 0 <= k < |Moderation.InappropriateWords| &&
           Strings.Occurs(Moderation.InappropriateWords[k], Strings.Lower(ctx.text.value))
  {
    ctx.text.Some? && ctx.text.value != "" && Moderation.ContainsInappropriate(ctx.text.value)
  }

  /** The moderation short-circuit: the warning template and a revert of the user's utterance. */
  function ModerationWarning(): Reply {
    Reply([Template(ModerationWarningTemplate)], [UserUtteranceReverted], [])
  }

  /** The login short-circuit, returning `events`. */
  function NeedLogin(events: seq<Event>): Reply {
    Reply([Template(NeedLoginTemplate)], events, [])
  }

  /** The single event that resets a form slot. */
  function ClearSlot(name: string): seq<Event> {
    [SlotSet(name, None)]
  }
}
