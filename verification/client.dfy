/** The `Client` snapshot: its defaults, how it is decoded from the wire,
    the last-active-session lookup, and the whole-value replacement the
    `get`/`create`/`destroy` verbs perform on the shared client. */
module ClientModel {
  import opened Outcomes
  import opened Entities
  import opened Endpoints

  datatype Client = Client(
    signIn: SignIn,
    signUp: SignUp,
    sessions: seq<Session>,
    lastActiveSessionId: Option<string>)

  /** `Client()`: every initialiser argument at its default. */
  const EmptyClient := Client(EmptySignIn, EmptySignUp, [], None)

  // ---------------------------------------------------------------------
  // Decoding

  /** A keyed field of a JSON object: missing, explicitly null, or a value. */
  datatype Field<+T> = Absent | Null | Present(value: T)

  /** The payload of a client object, at the level of field presence. */
  datatype WireClient = WireClient(
    signIn: Field<SignIn>,
    signUp: Field<SignUp>,
    sessions: Field<seq<Session>>,
    lastActiveSessionId: Field<string>)

  /** `decodeIfPresent`: a missing key and an explicit null both give nil. */
  function DecodeIfPresent<T>(f: Field<T>): (r: Option<T>)
    ensures r.Some? <==> f.Present?
    ensures r.Some? ==> r.value == f.value
  {
    match f
    case Present(v) => Some(v)
    case _ => None
  }

  /** `decode`: a missing key throws `keyNotFound`, a null throws
      `valueNotFound`. */
  function DecodeRequired<T>(f: Field<T>, key: string): (r: Outcome<T>)
    ensures r.Ok? <==> f.Present?
    ensures r.Ok? ==> r.value == f.value
    ensures f.Absent? ==> r == Fail(KeyNotFound(key))
    ensures f.Null? ==> r == Fail(ValueNotFound(key))
  {
    match f
    case Absent => Fail(KeyNotFound(key))
    case Null => Fail(ValueNotFound(key))
    case Present(v) => Ok(v)
  }

  /** `Client.init(from:)`. A null or missing `signIn`/`signUp` becomes the
      empty default; `sessions` is required; `lastActiveSessionId` is
      optional. */
  function Decode(w: WireClient): (r: Outcome<Client>)
    ensures r.Ok? <==> w.sessions.Present?
    ensures w.sessions.Absent? ==> r == Fail(KeyNotFound("sessions"))
    ensures w.sessions.Null? ==> r == Fail(ValueNotFound("sessions"))
    ensures r.Ok? ==> r.value.sessions == w.sessions.value
    ensures r.Ok? && w.signIn.Present? ==> r.value.signIn == w.signIn.value
    ensures r.Ok? && !w.signIn.Present? ==> r.value.signIn == EmptySignIn
    ensures r.Ok? && w.signUp.Present? ==> r.value.signUp == w.signUp.value
    ensures r.Ok? && !w.signUp.Present? ==> r.value.signUp == EmptySignUp
    ensures r.Ok? ==> (r.value.lastActiveSessionId.Some? <==> w.lastActiveSessionId.Present?)
    ensures r.Ok? && w.lastActiveSessionId.Present? ==> r.value.lastActiveSessionId == Some(w.lastActiveSessionId.value)
  {
    var signIn := match DecodeIfPresent(w.signIn) case Some(s) => s case None => EmptySignIn;
    var signUp := match DecodeIfPresent(w.signUp) case Some(s) => s case None => EmptySignUp;
    match DecodeRequired(w.sessions, "sessions")
    case Fail(e) => Fail(e)
    case Ok(sessions) => Ok(Client(signIn, signUp, sessions, DecodeIfPresent(w.lastActiveSessionId)))
  }

  /** A payload that spells every field of a client out. */
  function WireOf(c: Client): WireClient {
    WireClient(
      Present(c.signIn),
      Present(c.signUp),
      Present(c.sessions),
      match c.lastActiveSessionId case Some(id) => Present(id) case None => Null)
  }

  /** Every client survives a trip through its fully spelled-out payload. */
  lemma DecodeWireOf(c: Client)
    ensures Decode(WireOf(c)) == Ok(c)
  {
  }

  /** Decoding normalises: whatever a payload decodes to is a fixed point of
      spelling it out and decoding again. */
  lemma DecodeIsNormalising(w: WireClient)
    requires Decode(w).Ok?
    ensures Decode(WireOf(Decode(w).value)) == Decode(w)
  {
    DecodeWireOf(Decode(w).value);
  }

  /** A null and a missing optional field decode alike. */
  lemma NullAndAbsentDecodeAlike(w: WireClient)
    ensures Decode(w.(signIn := Null)) == Decode(w.(signIn := Absent))
    ensures Decode(w.(signUp := Null)) == Decode(w.(signUp := Absent))
    ensures Decode(w.(lastActiveSessionId := Null)) == Decode(w.(lastActiveSessionId := Absent))
  {
  }

  // ---------------------------------------------------------------------
  // The last active session

  /** `sessions.firstIndex(where: { $0.id == id })`, where a nil id matches
      no session. */
  function FirstIndexWithId(sessions: seq<Session>, id: Option<string>): (r: Option<nat>)
    ensures r.Some? ==> r.value < |sessions| && Some(sessions[r.value].id) == id
    ensures r.Some? ==> forall j :: 0 <= j < r.value ==> Some(sessions[j].id) != id
    ensures r.None? ==> forall j :: 0 <= j < |sessions| ==> Some(sessions[j].id) != id
    decreases |sessions|
  {
    if |sessions| == 0 then None
    else if Some(sessions[0].id) == id then Some(0)
    else match FirstIndexWithId(sessions[1..], id)
      case None => None
      case Some(k) => Some(k + 1)
  }

  /** `lastActiveSession`: the first session whose id equals
      `lastActiveSessionId`; nil when that id is nil or matches nothing. */
  function LastActiveSession(c: Client): (r: Option<Session>)
    ensures c.lastActiveSessionId.None? ==> r.None?
    ensures r.Some? ==> r.value in c.sessions && c.lastActiveSessionId == Some(r.value.id)
    ensures r.None? <==> forall j :: 0 <= j < |c.sessions| ==> Some(c.sessions[j].id) != c.lastActiveSessionId
    ensures r.Some? ==>
      exists i :: 0 <= i < |c.sessions| && c.sessions[i] == r.value &&
        (forall j :: 0 <= j < i ==> c.sessions[j].id != r.value.id)
  {
    match FirstIndexWithId(c.sessions, c.lastActiveSessionId)
    case None => None
    case Some(i) => Some(c.sessions[i])
  }

  /** The default client has no sessions and no last active session. */
  lemma EmptyClientHasNoActiveSession()
    ensures EmptyClient.sessions == [] && EmptyClient.lastActiveSessionId == None
    ensures LastActiveSession(EmptyClient) == None
    ensures EmptyClient.signIn == EmptySignIn && EmptyClient.signUp == EmptySignUp
  {
  }

  // ---------------------------------------------------------------------
  // The verbs

  /** What a verb leaves behind: the shared client, the error it threw (if
      any), and the request it sent. */
  datatype Transition = Transition(client: Client, thrown: Option<Error>, sent: Request)

  /** `Client.get()`: sends GET `/v1/client`; on success the shared client
      becomes the response, or `Client()` when the response is nil. A thrown
      error leaves the shared client as it was. */
  function Get(shared: Client, send: Request -> Outcome<Option<Client>>): (t: Transition)
    ensures t.sent.path == "/v1/client" && t.sent.httpMethod == GET && t.sent.body == None
    ensures t.sent == ToRequest(GetClient)
    ensures t.sent.query == [] && t.sent.response == Envelope(ClientResource, true)
    ensures t.thrown.None? <==> send(t.sent).Ok?
    ensures t.thrown.Some? ==> t.client == shared && send(t.sent) == Fail(t.thrown.value)
    ensures send(t.sent) == Ok(None) ==> t.client == EmptyClient
    ensures forall c :: send(t.sent) == Ok(Some(c)) ==> t.client == c
  {
    ClientPath();
    var request := ToRequest(GetClient);
    match send(request)
    case Fail(e) => Transition(shared, Some(e), request)
    case Ok(response) =>
      Transition(match response case Some(c) => c case None => EmptyClient, None, request)
  }

  /** `Client.create()`: sends PUT `/v1/client`; on success the shared client
      is replaced wholesale by the response. */
  function Create(shared: Client, send: Request -> Outcome<Client>): (t: Transition)
    ensures t.sent.path == "/v1/client" && t.sent.httpMethod == PUT && t.sent.body == None
    ensures t.sent == ToRequest(PutClient)
    ensures t.sent.query == [] && t.sent.response == Envelope(ClientResource, false)
    ensures t.thrown.None? <==> send(t.sent).Ok?
    ensures t.thrown.Some? ==> t.client == shared && send(t.sent) == Fail(t.thrown.value)
    ensures t.thrown.None? ==> t.client == send(t.sent).value
  {
    ClientPath();
    var request := ToRequest(PutClient);
    match send(request)
    case Fail(e) => Transition(shared, Some(e), request)
    case Ok(c) => Transition(c, None, request)
  }

  /** `Client.destroy()`: sends DELETE `/v1/client`; only once that returns is
      the shared client reset to `Client()`. If sending throws, the shared
      client is unchanged. */
  function Destroy(shared: Client, send: Request -> Outcome<Client>): (t: Transition)
    ensures t.sent.path == "/v1/client" && t.sent.httpMethod == DELETE && t.sent.body == None
    ensures t.sent == ToRequest(DeleteClient)
    ensures t.sent.query == [] && t.sent.response == Envelope(ClientResource, false)
    ensures t.thrown.None? <==> send(t.sent).Ok?
    ensures t.thrown.Some? ==> t.client == shared && send(t.sent) == Fail(t.thrown.value)
    ensures t.thrown.None? ==> t.client == EmptyClient
  {
    ClientPath();
    var request := ToRequest(DeleteClient);
    match send(request)
    case Fail(e) => Transition(shared, Some(e), request)
    case Ok(_) => Transition(EmptyClient, None, request)
  }

  /** The three verbs of the shared client. */
  datatype Verb =
    | GetVerb(sendGet: Request -> Outcome<Option<Client>>)
    | CreateVerb(sendPut: Request -> Outcome<Client>)
    | DestroyVerb(sendDelete: Request -> Outcome<Client>)

  function Apply(shared: Client, v: Verb): Transition {
    match v
    case GetVerb(send) => Get(shared, send)
    case CreateVerb(send) => Create(shared, send)
    case DestroyVerb(send) => Destroy(shared, send)
  }

  /** Every write is a whole-value replacement: after a verb that did not
      throw, the shared client does not depend on what it was before; after
      one that threw, it is exactly what it was before. */
  lemma VerbsReplaceWholeValue(a: Client, b: Client, v: Verb)
    ensures Apply(a, v).sent == Apply(b, v).sent
    ensures Apply(a, v).thrown == Apply(b, v).thrown
    ensures Apply(a, v).thrown.None? ==> Apply(a, v).client == Apply(b, v).client
    ensures Apply(a, v).thrown.Some? ==> Apply(a, v).client == a && Apply(b, v).client == b
  {
  }

  /** A sequence of verbs, applied in the order they resolve. */
  function Run(shared: Client, verbs: seq<Verb>): Client
    decreases |verbs|
  {
    if |verbs| == 0 then shared else Run(Apply(shared, verbs[0]).client, verbs[1..])
  }

  /** The client after a run is either the starting client (when every verb
      threw) or the client left by the last verb that did not throw. */
  lemma {:induction false} RunEndsWithLastSuccess(shared: Client, verbs: seq<Verb>)
    ensures (forall i :: 0 <= i < |verbs| ==> Apply(shared, verbs[i]).thrown.Some?) ==>
      Run(shared, verbs) == shared
    ensures forall i :: (0 <= i < |verbs| && Apply(shared, verbs[i]).thrown.None? &&
        (forall j :: i < j < |verbs| ==> Apply(shared, verbs[j]).thrown.Some?)) ==>
      Run(shared, verbs) == Apply(shared, verbs[i]).client
    decreases |verbs|
  {
    if |verbs| > 0 {
      var next := Apply(shared, verbs[0]).client;
      RunEndsWithLastSuccess(next, verbs[1..]);
      forall i | 0 <= i < |verbs[1..]|
        ensures Apply(next, verbs[1..][i]).thrown == Apply(shared, verbs[1..][i]).thrown
        ensures Apply(next, verbs[1..][i]).thrown.None? ==>
          Apply(next, verbs[1..][i]).client == Apply(shared, verbs[1..][i]).client
      {
        VerbsReplaceWholeValue(next, shared, verbs[1..][i]);
      }
    }
  }

  /** A successful destroy leaves no session and no last active session,
      whatever the client held before. */
  lemma DestroyClearsSessions(shared: Client, send: Request -> Outcome<Client>)
    requires send(ToRequest(DeleteClient)).Ok?
    ensures Destroy(shared, send).client.sessions == []
    ensures LastActiveSession(Destroy(shared, send).client) == None
  {
  }
}
