/** The `APIEndpoint.v1` registry: a tree of nodes whose path is the parent's
    path plus one segment, and the request descriptors its leaves build. */
module Endpoints {
  import opened Outcomes

  /** The five collections, each reached from `/v1/client` or `/v1/me`. */
  datatype Collection = SignUps | SignIns | EmailAddresses | PhoneNumbers | ExternalAccounts

  /** The action nodes below a `WithID`. */
  datatype Action = PrepareVerification | AttemptVerification | PrepareFirstFactor | AttemptFirstFactor

  /** One node of the tree. `Item(c, id)` is `c.id(id)`, a `WithID` node;
      `ItemAction(c, id, a)` is one of its action children. */
  datatype Node =
    | V1
    | ClientNode
    | EnvironmentNode
    | Me
    | CollectionNode(collection: Collection)
    | Item(collection: Collection, id: string)
    | ItemAction(collection: Collection, id: string, action: Action)

  /** The action children each `WithID` struct declares: sign-ups, email
      addresses and phone numbers have `prepareVerification` and
      `attemptVerification`, sign-ins have `prepareFirstFactor` and
      `attemptFirstFactor`, external accounts have none. */
  predicate HasAction(c: Collection, a: Action) {
    match c
    case SignIns => a == PrepareFirstFactor || a == AttemptFirstFactor
    case ExternalAccounts => false
    case _ => a == PrepareVerification || a == AttemptVerification
  }

  /** The nodes the Swift types can express. */
  predicate ValidNode(n: Node) {
    n.ItemAction? ==> HasAction(n.collection, n.action)
  }

  /** Distance from the root `/v1`. */
  function Depth(n: Node): nat {
    match n
    case V1 => 0
    case ClientNode | EnvironmentNode | Me => 1
    case CollectionNode(_) => 2
    case Item(_, _) => 3
    case ItemAction(_, _, _) => 4
  }

  /** The node whose path each node's constructor extends. */
  function Parent(n: Node): (p: Node)
    requires n != V1
    ensures Depth(p) + 1 == Depth(n)
    ensures ValidNode(n) ==> ValidNode(p)
  {
    match n
    case ClientNode | EnvironmentNode | Me => V1
    case CollectionNode(c) => if c == SignUps || c == SignIns then ClientNode else Me
    case Item(c, _) => CollectionNode(c)
    case ItemAction(c, id, _) => Item(c, id)
  }

  function CollectionSegment(c: Collection): string {
    match c
    case SignUps => "/sign_ups"
    case SignIns => "/sign_ins"
    case EmailAddresses => "/email_addresses"
    case PhoneNumbers => "/phone_numbers"
    case ExternalAccounts => "/external_accounts"
  }

  function ActionSegment(a: Action): string {
    match a
    case PrepareVerification => "/prepare_verification"
    case AttemptVerification => "/attempt_verification"
    case PrepareFirstFactor => "/prepare_first_factor"
    case AttemptFirstFactor => "/attempt_first_factor"
  }

  /** The text a node appends to its parent's path: a fixed segment, or
      `"/" + id` for a `WithID` node (the id is interpolated unescaped). */
  function Segment(n: Node): (s: string)
    requires n != V1
    ensures |s| > 0 && s[0] == '/'
  {
    match n
    case ClientNode => "/client"
    case EnvironmentNode => "/environment"
    case Me => "/me"
    case CollectionNode(c) => CollectionSegment(c)
    case Item(_, id) => "/" + id
    case ItemAction(_, _, a) => ActionSegment(a)
  }

  /** The path of a node: the root is `/v1`; every other node extends its
      parent's path. */
  function Path(n: Node): (r: string)
    ensures |r| >= 3 + Depth(n)
    decreases Depth(n)
  {
    if n == V1 then "/v1" else Path(Parent(n)) + Segment(n)
  }

  /** Every path lies under `/v1`. */
  lemma {:induction false} PathUnderV1(n: Node)
    ensures "/v1" <= Path(n)
    decreases Depth(n)
  {
    if n != V1 {
      PathUnderV1(Parent(n));
    }
  }

  /** A parent's path is a strict prefix of its child's. */
  lemma ParentPathIsStrictPrefix(n: Node)
    requires n != V1
    ensures Path(Parent(n)) < Path(n)
  {
  }

  /** `a` is a proper ancestor of `n` in the tree. */
  predicate IsAncestor(a: Node, n: Node)
    decreases Depth(n)
  {
    n != V1 && (Parent(n) == a || IsAncestor(a, Parent(n)))
  }

  /** Containment: every proper ancestor's path is a strict prefix of the
      descendant's path. */
  lemma {:induction false} AncestorPathIsStrictPrefix(a: Node, n: Node)
    requires IsAncestor(a, n)
    ensures Path(a) < Path(n)
    decreases Depth(n)
  {
    ParentPathIsStrictPrefix(n);
    if Parent(n) != a {
      AncestorPathIsStrictPrefix(a, Parent(n));
    }
  }

  /** Every node lies under `/v1`: the root is an ancestor of all others. */
  lemma {:induction false} RootIsAncestor(n: Node)
    requires n != V1
    ensures IsAncestor(V1, n)
    decreases Depth(n)
  {
    if Parent(n) != V1 {
      RootIsAncestor(Parent(n));
    }
  }

  /** The fixed text a node appends after its id. */
  function SuffixAfterId(n: Node): string
    requires n.Item? || n.ItemAction?
  {
    if n.Item? then "" else ActionSegment(n.action)
  }

  lemma ItemPathStep(c: Collection, id: string)
    ensures Path(Item(c, id)) == Path(CollectionNode(c)) + ("/" + id)
  {
  }

  lemma ActionPathStep(c: Collection, id: string, a: Action)
    ensures Path(ItemAction(c, id, a)) == Path(Item(c, id)) + ActionSegment(a)
  {
  }

  lemma Regroup(p: string, id: string, s: string)
    ensures p + ("/" + id) + s == p + "/" + id + s
  {
  }

  /** An id-bearing path is the collection's path, a slash, the id, and a
      suffix that does not depend on the id. */
  lemma PathAroundId(n: Node)
    requires n.Item? || n.ItemAction?
    ensures Path(n) == Path(CollectionNode(n.collection)) + "/" + n.id + SuffixAfterId(n)
  {
    var c, id := n.collection, n.id;
    ItemPathStep(c, id);
    Regroup(Path(CollectionNode(c)), id, SuffixAfterId(n));
    if n.ItemAction? {
      ActionPathStep(c, id, n.action);
    }
  }

  /** Cancelling a common prefix and suffix. */
  lemma CancelAround(p: string, x: string, y: string, s: string)
    requires p + x + s == p + y + s
    ensures x == y
  {
    var lhs := p + x + s;
    assert |x| == |y|;
    assert x == lhs[|p|..|p| + |x|];
    assert y == (p + y + s)[|p|..|p| + |y|];
  }

  /** `id(_:)` is injective: two ids give the same path at the same place in
      the tree only if they are equal. */
  lemma IdIsInjective(n: Node, x: string, y: string)
    requires n.Item? || n.ItemAction?
    requires Path(n.(id := x)) == Path(n.(id := y))
    ensures x == y
  {
    PathAroundId(n.(id := x));
    PathAroundId(n.(id := y));
    CancelAround(Path(CollectionNode(n.collection)) + "/", x, y, SuffixAfterId(n));
  }

  /** The id is interpolated without escaping, so injectivity holds only
      position by position: an id that itself ends in an action segment
      names the same path as that action node, e.g. the sign-up id
      `a/prepare_verification` and the prepare path of sign-up `a`. */
  lemma IdsAreNotEscaped(c: Collection, id: string, a: Action)
    requires HasAction(c, a)
    ensures Path(Item(c, id + ActionSegment(a))) == Path(ItemAction(c, id, a))
  {
    ItemPathStep(c, id + ActionSegment(a));
    ItemPathStep(c, id);
    ActionPathStep(c, id, a);
    Regroup(Path(CollectionNode(c)), id, ActionSegment(a));
  }

  // ---------------------------------------------------------------------
  // Request descriptors built by the leaves

  datatype HttpMethod = GET | POST | PUT | PATCH | DELETE

  /** A query item as the query encoder emits it. */
  datatype QueryItem = QueryItem(name: string, value: string)

  /** The encoded parameters a leaf sends as its body. */
  type Params = seq<(string, string)>

  /** `SignUp.GetParams` / `SignIn.GetParams`. */
  datatype GetParams = GetParams(rotatingTokenNonce: Option<string>)

  /** The resource a request decodes, as its Swift response type names it. */
  datatype Resource =
    | ClientResource | EnvironmentResource | SignUpResource | SignInResource
    | UserResource | EmailAddressResource | PhoneNumberResource | ExternalAccountResource

  /** The resource decoded by the requests at a node: the client, the
      environment or the user at those nodes, and the collection's element
      type anywhere under a collection. */
  function NodeResource(n: Node): Resource
    requires n != V1
  {
    match n
    case ClientNode => ClientResource
    case EnvironmentNode => EnvironmentResource
    case Me => UserResource
    case CollectionNode(c) => CollectionResource(c)
    case Item(c, _) => CollectionResource(c)
    case ItemAction(c, _, _) => CollectionResource(c)
  }

  function CollectionResource(c: Collection): Resource {
    match c
    case SignUps => SignUpResource
    case SignIns => SignInResource
    case EmailAddresses => EmailAddressResource
    case PhoneNumbers => PhoneNumberResource
    case ExternalAccounts => ExternalAccountResource
  }

  /** The response type: a `ClientResponse` envelope (whose resource may be
      optional), a bare resource, or `Void`. */
  datatype ResponseType =
    | Envelope(resource: Resource, optional: bool)
    | Bare(resource: Resource)
    | NoContent

  datatype Request = Request(
    path: string,
    httpMethod: HttpMethod,
    query: seq<QueryItem>,
    body: Option<Params>,
    response: ResponseType)

  /** Every leaf of the tree, with its arguments. */
  datatype Operation =
    | GetClient | PutClient | DeleteClient
    | GetEnvironment
    | GetSignUps
    | PostSignUp(params: Params)
    | GetSignUp(id: string, getParams: Option<GetParams>)
    | PrepareSignUpVerification(id: string, params: Params)
    | AttemptSignUpVerification(id: string, params: Params)
    | PostSignIn(params: Params)
    | GetSignIn(id: string, getParams: Option<GetParams>)
    | PrepareSignInFirstFactor(id: string, params: Params)
    | AttemptSignInFirstFactor(id: string, params: Params)
    | GetMe
    | UpdateMe(params: Params)
    | PostEmailAddress(params: Params)
    | GetEmailAddress(id: string)
    | DeleteEmailAddress(id: string)
    | PrepareEmailAddressVerification(id: string, params: Params)
    | AttemptEmailAddressVerification(id: string, params: Params)
    | PostPhoneNumber(params: Params)
    | GetPhoneNumber(id: string)
    | DeletePhoneNumber(id: string)
    | PreparePhoneNumberVerification(id: string, params: Params)
    | AttemptPhoneNumberVerification(id: string, params: Params)
    | CreateExternalAccount(params: Params)
    | GetExternalAccount(id: string)
    | DeleteExternalAccount(id: string)

  /** The node whose path a leaf uses. */
  function Target(op: Operation): (n: Node)
    ensures ValidNode(n)
    ensures n != V1
  {
    match op
    case GetClient | PutClient | DeleteClient => ClientNode
    case GetEnvironment => EnvironmentNode
    case GetSignUps | PostSignUp(_) => CollectionNode(SignUps)
    case GetSignUp(id, _) => Item(SignUps, id)
    case PrepareSignUpVerification(id, _) => ItemAction(SignUps, id, PrepareVerification)
    case AttemptSignUpVerification(id, _) => ItemAction(SignUps, id, AttemptVerification)
    case PostSignIn(_) => CollectionNode(SignIns)
    case GetSignIn(id, _) => Item(SignIns, id)
    case PrepareSignInFirstFactor(id, _) => ItemAction(SignIns, id, PrepareFirstFactor)
    case AttemptSignInFirstFactor(id, _) => ItemAction(SignIns, id, AttemptFirstFactor)
    case GetMe | UpdateMe(_) => Me
    case PostEmailAddress(_) => CollectionNode(EmailAddresses)
    case GetEmailAddress(id) => Item(EmailAddresses, id)
    case DeleteEmailAddress(id) => Item(EmailAddresses, id)
    case PrepareEmailAddressVerification(id, _) => ItemAction(EmailAddresses, id, PrepareVerification)
    case AttemptEmailAddressVerification(id, _) => ItemAction(EmailAddresses, id, AttemptVerification)
    case PostPhoneNumber(_) => CollectionNode(PhoneNumbers)
    case GetPhoneNumber(id) => Item(PhoneNumbers, id)
    case DeletePhoneNumber(id) => Item(PhoneNumbers, id)
    case PreparePhoneNumberVerification(id, _) => ItemAction(PhoneNumbers, id, PrepareVerification)
    case AttemptPhoneNumberVerification(id, _) => ItemAction(PhoneNumbers, id, AttemptVerification)
    case CreateExternalAccount(_) => CollectionNode(ExternalAccounts)
    case GetExternalAccount(id) => Item(ExternalAccounts, id)
    case DeleteExternalAccount(id) => Item(ExternalAccounts, id)
  }

  /** The HTTP method of every leaf, written out flat as the Swift
      initialisers give it (`.init(path:)` without a method is GET). */
  function ExpectedMethod(op: Operation): HttpMethod {
    match op
    case GetClient => GET
    case PutClient => PUT
    case DeleteClient => DELETE
    case GetEnvironment => GET
    case GetSignUps => GET
    case PostSignUp(_) => POST
    case GetSignUp(_, _) => GET
    case PrepareSignUpVerification(_, _) => POST
    case AttemptSignUpVerification(_, _) => POST
    case PostSignIn(_) => POST
    case GetSignIn(_, _) => GET
    case PrepareSignInFirstFactor(_, _) => POST
    case AttemptSignInFirstFactor(_, _) => POST
    case GetMe => GET
    case UpdateMe(_) => PATCH
    case PostEmailAddress(_) => POST
    case GetEmailAddress(_) => GET
    case DeleteEmailAddress(_) => DELETE
    case PrepareEmailAddressVerification(_, _) => POST
    case AttemptEmailAddressVerification(_, _) => POST
    case PostPhoneNumber(_) => POST
    case GetPhoneNumber(_) => GET
    case DeletePhoneNumber(_) => DELETE
    case PreparePhoneNumberVerification(_, _) => POST
    case AttemptPhoneNumberVerification(_, _) => POST
    case CreateExternalAccount(_) => POST
    case GetExternalAccount(_) => GET
    case DeleteExternalAccount(_) => DELETE
  }

  /** The leaves that send their parameters: every create, prepare and
      attempt, and the user update. */
  predicate TakesParams(op: Operation) {
    op.PostSignUp? || op.PrepareSignUpVerification? || op.AttemptSignUpVerification?
    || op.PostSignIn? || op.PrepareSignInFirstFactor? || op.AttemptSignInFirstFactor?
    || op.UpdateMe? || op.PostEmailAddress? || op.PrepareEmailAddressVerification?
    || op.AttemptEmailAddressVerification? || op.PostPhoneNumber?
    || op.PreparePhoneNumberVerification? || op.AttemptPhoneNumberVerification?
    || op.CreateExternalAccount?
  }

  /** The HTTP method each leaf fixes, grouped by kind. */
  function MethodOf(op: Operation): (m: HttpMethod)
    ensures m == ExpectedMethod(op)
  {
    match op
    case PutClient => PUT
    case DeleteClient | DeleteEmailAddress(_) | DeletePhoneNumber(_) | DeleteExternalAccount(_) => DELETE
    case UpdateMe(_) => PATCH
    case PostSignUp(_) | PrepareSignUpVerification(_, _) | AttemptSignUpVerification(_, _)
      | PostSignIn(_) | PrepareSignInFirstFactor(_, _) | AttemptSignInFirstFactor(_, _)
      | PostEmailAddress(_) | PrepareEmailAddressVerification(_, _) | AttemptEmailAddressVerification(_, _)
      | PostPhoneNumber(_) | PreparePhoneNumberVerification(_, _) | AttemptPhoneNumberVerification(_, _)
      | CreateExternalAccount(_) => POST
    case _ => GET
  }

  /** Leaves that take parameters send them as the body; the others send
      none. */
  function BodyOf(op: Operation): (b: Option<Params>)
    ensures b.Some? <==> ExpectedMethod(op) == POST || ExpectedMethod(op) == PATCH
    ensures b.Some? ==> b.value == op.params
  {
    if TakesParams(op) then Some(op.params) else None
  }

  /** `params?.rotatingTokenNonce`: absent when either level is absent. */
  function NonceOf(p: Option<GetParams>): Option<string> {
    match p
    case None => None
    case Some(g) => g.rotatingTokenNonce
  }

  /** `URLQueryEncoder.encode(_:forKey:)` followed by `items`: a nil value
      encodes to no item at all. */
  function EncodeQuery(value: Option<string>, key: string): (items: seq<QueryItem>)
    ensures |items| <= 1
    ensures items == [] <==> value.None?
    ensures forall i :: 0 <= i < |items| ==> items[i] == QueryItem(key, value.value)
  {
    match value
    case None => []
    case Some(v) => [QueryItem(key, v)]
  }

  const RotatingTokenNonceKey := "rotating_token_nonce"

  /** Only the two "get by id" leaves build a query: one
      `rotating_token_nonce` item when the nonce is given, none otherwise. */
  function QueryOf(op: Operation): (q: seq<QueryItem>)
    ensures q != [] ==> op.GetSignUp? || op.GetSignIn?
    ensures (op.GetSignUp? || op.GetSignIn?) ==> (q == [] <==> NonceOf(op.getParams).None?)
    ensures |q| <= 1
    ensures forall i :: 0 <= i < |q| ==> q[i] == QueryItem("rotating_token_nonce", NonceOf(op.getParams).value)
  {
    match op
    case GetSignUp(_, p) => EncodeQuery(NonceOf(p), RotatingTokenNonceKey)
    case GetSignIn(_, p) => EncodeQuery(NonceOf(p), RotatingTokenNonceKey)
    case _ => []
  }

  /** The response type of each leaf: `Void` for the three item deletes, the
      bare environment for its get, an optional client for the client get,
      and a `ClientResponse` envelope of the node's resource otherwise. */
  function ResponseOf(op: Operation): (r: ResponseType)
    ensures r == NoContent <==> ExpectedMethod(op) == DELETE && op != DeleteClient
    ensures r.Bare? <==> op == GetEnvironment
    ensures r.Envelope? && r.optional <==> op == GetClient
    ensures r.Envelope? && r.resource == ClientResource <==> Target(op) == ClientNode
    ensures r.Bare? ==> r.resource == EnvironmentResource
    ensures r != NoContent ==> r.resource == NodeResource(Target(op))
  {
    match op
    case GetClient => Envelope(ClientResource, true)
    case PutClient | DeleteClient => Envelope(ClientResource, false)
    case GetEnvironment => Bare(EnvironmentResource)
    case GetSignUps | PostSignUp(_) | GetSignUp(_, _) | PrepareSignUpVerification(_, _)
      | AttemptSignUpVerification(_, _) => Envelope(SignUpResource, false)
    case PostSignIn(_) | GetSignIn(_, _) | PrepareSignInFirstFactor(_, _)
      | AttemptSignInFirstFactor(_, _) => Envelope(SignInResource, false)
    case GetMe | UpdateMe(_) => Envelope(UserResource, false)
    case DeleteEmailAddress(_) | DeletePhoneNumber(_) | DeleteExternalAccount(_) => NoContent
    case PostEmailAddress(_) | GetEmailAddress(_) | PrepareEmailAddressVerification(_, _)
      | AttemptEmailAddressVerification(_, _) => Envelope(EmailAddressResource, false)
    case PostPhoneNumber(_) | GetPhoneNumber(_) | PreparePhoneNumberVerification(_, _)
      | AttemptPhoneNumberVerification(_, _) => Envelope(PhoneNumberResource, false)
    case CreateExternalAccount(_) | GetExternalAccount(_) => Envelope(ExternalAccountResource, false)
  }

  /** The request descriptor a leaf builds. */
  function ToRequest(op: Operation): (r: Request)
    ensures "/v1" <= r.path
    ensures r.body.Some? <==> r.httpMethod == POST || r.httpMethod == PATCH
    ensures r.query != [] ==> r.httpMethod == GET && (op.GetSignUp? || op.GetSignIn?)
  {
    PathUnderV1(Target(op));
    Request(Path(Target(op)), MethodOf(op), QueryOf(op), BodyOf(op), ResponseOf(op))
  }

  // ---------------------------------------------------------------------
  // Properties of the registry

  /** The full path of every leaf, written out flat. */
  function ExpectedPath(op: Operation): string {
    match op
    case GetClient | PutClient | DeleteClient => "/v1/client"
    case GetEnvironment => "/v1/environment"
    case GetSignUps | PostSignUp(_) => "/v1/client/sign_ups"
    case GetSignUp(id, _) => "/v1/client/sign_ups/" + id
    case PrepareSignUpVerification(id, _) => "/v1/client/sign_ups/" + id + "/prepare_verification"
    case AttemptSignUpVerification(id, _) => "/v1/client/sign_ups/" + id + "/attempt_verification"
    case PostSignIn(_) => "/v1/client/sign_ins"
    case GetSignIn(id, _) => "/v1/client/sign_ins/" + id
    case PrepareSignInFirstFactor(id, _) => "/v1/client/sign_ins/" + id + "/prepare_first_factor"
    case AttemptSignInFirstFactor(id, _) => "/v1/client/sign_ins/" + id + "/attempt_first_factor"
    case GetMe | UpdateMe(_) => "/v1/me"
    case PostEmailAddress(_) => "/v1/me/email_addresses"
    case GetEmailAddress(id) => "/v1/me/email_addresses/" + id
    case DeleteEmailAddress(id) => "/v1/me/email_addresses/" + id
    case PrepareEmailAddressVerification(id, _) => "/v1/me/email_addresses/" + id + "/prepare_verification"
    case AttemptEmailAddressVerification(id, _) => "/v1/me/email_addresses/" + id + "/attempt_verification"
    case PostPhoneNumber(_) => "/v1/me/phone_numbers"
    case GetPhoneNumber(id) => "/v1/me/phone_numbers/" + id
    case DeletePhoneNumber(id) => "/v1/me/phone_numbers/" + id
    case PreparePhoneNumberVerification(id, _) => "/v1/me/phone_numbers/" + id + "/prepare_verification"
    case AttemptPhoneNumberVerification(id, _) => "/v1/me/phone_numbers/" + id + "/attempt_verification"
    case CreateExternalAccount(_) => "/v1/me/external_accounts"
    case GetExternalAccount(id) => "/v1/me/external_accounts/" + id
    case DeleteExternalAccount(id) => "/v1/me/external_accounts/" + id
  }

  /** The flat path of each collection. */
  function CollectionPath(c: Collection): string {
    match c
    case SignUps => "/v1/client/sign_ups"
    case SignIns => "/v1/client/sign_ins"
    case EmailAddresses => "/v1/me/email_addresses"
    case PhoneNumbers => "/v1/me/phone_numbers"
    case ExternalAccounts => "/v1/me/external_accounts"
  }

  /** The paths of the nodes that carry no id, one node at a time. */
  lemma ClientPath()
    ensures Path(ClientNode) == "/v1/client"
  {
    assert Path(ClientNode) == "/v1" + "/client";
  }

  lemma EnvironmentPath()
    ensures Path(EnvironmentNode) == "/v1/environment"
  {
    assert Path(EnvironmentNode) == "/v1" + "/environment";
  }

  lemma MePath()
    ensures Path(Me) == "/v1/me"
  {
    assert Path(Me) == "/v1" + "/me";
  }

  lemma CollectionPathStep(c: Collection, ownerPath: string)
    requires Path(Parent(CollectionNode(c))) == ownerPath
    ensures Path(CollectionNode(c)) == ownerPath + CollectionSegment(c)
  {
  }

  lemma SignUpsPath()
    ensures Path(CollectionNode(SignUps)) == "/v1/client/sign_ups"
  {
    ClientPath();
    CollectionPathStep(SignUps, "/v1/client");
  }

  lemma SignInsPath()
    ensures Path(CollectionNode(SignIns)) == "/v1/client/sign_ins"
  {
    ClientPath();
    CollectionPathStep(SignIns, "/v1/client");
  }

  lemma EmailAddressesPath()
    ensures Path(CollectionNode(EmailAddresses)) == "/v1/me/email_addresses"
  {
    MePath();
    CollectionPathStep(EmailAddresses, "/v1/me");
  }

  lemma PhoneNumbersPath()
    ensures Path(CollectionNode(PhoneNumbers)) == "/v1/me/phone_numbers"
  {
    MePath();
    CollectionPathStep(PhoneNumbers, "/v1/me");
  }

  lemma ExternalAccountsPath()
    ensures Path(CollectionNode(ExternalAccounts)) == "/v1/me/external_accounts"
  {
    MePath();
    CollectionPathStep(ExternalAccounts, "/v1/me");
  }

  lemma CollectionPaths(c: Collection)
    ensures Path(CollectionNode(c)) == CollectionPath(c)
  {
    match c
    case SignUps => SignUpsPath();
    case SignIns => SignInsPath();
    case EmailAddresses => EmailAddressesPath();
    case PhoneNumbers => PhoneNumbersPath();
    case ExternalAccounts => ExternalAccountsPath();
  }

  /** Exact shapes of the id-bearing paths: for any id, the sign-in attempt
      path is `/v1/client/sign_ins/{id}/attempt_first_factor`, the sign-up
      prepare path is `/v1/client/sign_ups/{id}/prepare_verification`, and
      so on for every collection and action. */
  lemma ItemPaths(c: Collection, id: string, a: Action)
    ensures Path(Item(c, id)) == CollectionPath(c) + "/" + id
    ensures Path(ItemAction(c, id, a)) == CollectionPath(c) + "/" + id + ActionSegment(a)
  {
    CollectionPaths(c);
    PathAroundId(Item(c, id));
    PathAroundId(ItemAction(c, id, a));
  }

  /** The two shapes singled out above, written out in full. */
  lemma SignInAttemptAndSignUpPreparePaths(id: string, p: Params)
    ensures ToRequest(AttemptSignInFirstFactor(id, p)).path == "/v1/client/sign_ins/" + id + "/attempt_first_factor"
    ensures ToRequest(PrepareSignUpVerification(id, p)).path == "/v1/client/sign_ups/" + id + "/prepare_verification"
  {
    PathsMatchTable(AttemptSignInFirstFactor(id, p));
    PathsMatchTable(PrepareSignUpVerification(id, p));
  }

  /** The item-level rows of the table, one collection at a time. */
  lemma SignUpsItemsMatchTable(op: Operation)
    requires (Target(op).Item? || Target(op).ItemAction?) && Target(op).collection == SignUps
    ensures ToRequest(op).path == ExpectedPath(op)
  {
    var n := Target(op);
    ItemPaths(SignUps, n.id, if n.ItemAction? then n.action else PrepareVerification);
    assert "/v1/client/sign_ups" + "/" == "/v1/client/sign_ups/";
  }

  lemma SignInsItemsMatchTable(op: Operation)
    requires (Target(op).Item? || Target(op).ItemAction?) && Target(op).collection == SignIns
    ensures ToRequest(op).path == ExpectedPath(op)
  {
    var n := Target(op);
    ItemPaths(SignIns, n.id, if n.ItemAction? then n.action else PrepareVerification);
    assert "/v1/client/sign_ins" + "/" == "/v1/client/sign_ins/";
  }

  lemma EmailAddressesItemsMatchTable(op: Operation)
    requires (Target(op).Item? || Target(op).ItemAction?) && Target(op).collection == EmailAddresses
    ensures ToRequest(op).path == ExpectedPath(op)
  {
    var n := Target(op);
    ItemPaths(EmailAddresses, n.id, if n.ItemAction? then n.action else PrepareVerification);
    assert "/v1/me/email_addresses" + "/" == "/v1/me/email_addresses/";
  }

  lemma PhoneNumbersItemsMatchTable(op: Operation)
    requires (Target(op).Item? || Target(op).ItemAction?) && Target(op).collection == PhoneNumbers
    ensures ToRequest(op).path == ExpectedPath(op)
  {
    var n := Target(op);
    ItemPaths(PhoneNumbers, n.id, if n.ItemAction? then n.action else PrepareVerification);
    assert "/v1/me/phone_numbers" + "/" == "/v1/me/phone_numbers/";
  }

  lemma ExternalAccountsItemsMatchTable(op: Operation)
    requires (Target(op).Item? || Target(op).ItemAction?) && Target(op).collection == ExternalAccounts
    ensures ToRequest(op).path == ExpectedPath(op)
  {
    var n := Target(op);
    ItemPaths(ExternalAccounts, n.id, PrepareVerification);
    assert "/v1/me/external_accounts" + "/" == "/v1/me/external_accounts/";
  }

  /** Exact path shapes: the hierarchical construction yields the flat table. */
  lemma PathsMatchTable(op: Operation)
    ensures ToRequest(op).path == ExpectedPath(op)
  {
    var n := Target(op);
    if n == ClientNode {
      ClientPath();
    } else if n == EnvironmentNode {
      EnvironmentPath();
    } else if n == Me {
      MePath();
    } else if n.CollectionNode? {
      CollectionPaths(n.collection);
    } else {
      match n.collection
      case SignUps => SignUpsItemsMatchTable(op);
      case SignIns => SignInsItemsMatchTable(op);
      case EmailAddresses => EmailAddressesItemsMatchTable(op);
      case PhoneNumbers => PhoneNumbersItemsMatchTable(op);
      case ExternalAccounts => ExternalAccountsItemsMatchTable(op);
    }
  }

  /** The method table: PUT only for the client `put`, PATCH only for the
      user update, DELETE exactly for the deletes, POST with the parameters as
      body exactly for the create/prepare/attempt leaves, GET (no body)
      exactly for the gets. */
  lemma MethodTable(op: Operation)
    ensures ToRequest(op).httpMethod == ExpectedMethod(op)
    ensures ToRequest(op).httpMethod == PUT <==> op == PutClient
    ensures ToRequest(op).httpMethod == PATCH <==> op.UpdateMe?
    ensures ToRequest(op).httpMethod == DELETE <==>
      op == DeleteClient || op.DeleteEmailAddress? || op.DeletePhoneNumber? || op.DeleteExternalAccount?
    ensures ToRequest(op).httpMethod == POST <==>
      op.PostSignUp? || op.PostSignIn? || op.PostEmailAddress? || op.PostPhoneNumber? || op.CreateExternalAccount?
      || op.PrepareSignUpVerification? || op.AttemptSignUpVerification?
      || op.PrepareSignInFirstFactor? || op.AttemptSignInFirstFactor?
      || op.PrepareEmailAddressVerification? || op.AttemptEmailAddressVerification?
      || op.PreparePhoneNumberVerification? || op.AttemptPhoneNumberVerification?
    ensures ToRequest(op).httpMethod == POST ==> ToRequest(op).body == Some(op.params)
    ensures ToRequest(op).httpMethod == GET <==>
      op == GetClient || op == GetEnvironment || op == GetSignUps || op.GetSignUp? || op.GetSignIn?
      || op == GetMe || op.GetEmailAddress? || op.GetPhoneNumber? || op.GetExternalAccount?
    ensures ToRequest(op).httpMethod == GET ==> ToRequest(op).body == None
  {
  }

  /** The "get by id" requests attach only `rotating_token_nonce`, valued
      `params?.rotatingTokenNonce`, so nil params and a nil nonce give the
      same request. */
  lemma GetByIdQuery(id: string, p: Option<GetParams>)
    ensures ToRequest(GetSignIn(id, p)).query == ToRequest(GetSignUp(id, p)).query
    ensures ToRequest(GetSignIn(id, p)).query ==
      (if NonceOf(p).Some? then [QueryItem("rotating_token_nonce", NonceOf(p).value)] else [])
    ensures ToRequest(GetSignIn(id, None)) == ToRequest(GetSignIn(id, Some(GetParams(None))))
    ensures ToRequest(GetSignUp(id, None)) == ToRequest(GetSignUp(id, Some(GetParams(None))))
  {
  }

  /** The email-address `WithID` lies under `/v1/me/email_addresses/`, not
      under `/v1/client`, and its delete decodes no body. */
  lemma EmailAddressUnderMe(id: string)
    ensures "/v1/me/email_addresses/" <= ToRequest(GetEmailAddress(id)).path
    ensures !("/v1/client" <= ToRequest(GetEmailAddress(id)).path)
    ensures ToRequest(DeleteEmailAddress(id)).path == ToRequest(GetEmailAddress(id)).path
    ensures ToRequest(DeleteEmailAddress(id)).httpMethod == DELETE
    ensures ToRequest(DeleteEmailAddress(id)).response == NoContent
  {
    EmailAddressesItemsMatchTable(GetEmailAddress(id));
    var p := ToRequest(GetEmailAddress(id)).path;
    assert p[4] == 'm';
  }
}
