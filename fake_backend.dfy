/** The simulated account API: the interceptor that answers five routes from an in-memory,
    ordered list of account records and writes the whole list to local storage after every
    change. Each route is a pure function from the store to an `Outcome`; the class
    `Interceptor` holds the store and its persisted copy and performs the same steps. */
module FakeBackend {
  import opened Wrappers
  import opened Text
  import opened Accounts
  import opened Token

  const DefaultMessage := "Unauthorized"

  /** The routes of `handleRoute`, in the order it tries them. */
  datatype Route = RouteAuthenticate | RouteList | RouteGetById | RouteUpdate | RouteDelete | RoutePassThrough

  /** What the provider's profile endpoint answered for the access token in the request body. */
  datatype ProviderResult = ProviderError(message: Option<string>) | Profile(id: string, name: string)

  /** The parts of an intercepted request that the routes read. */
  datatype Request = Request(url: string, verb: string, authorization: Option<string>, body: Patch)

  datatype Body = Empty | One(account: Account) | Many(accounts: seq<Account>)

  /** `ok(body)` (status 200), `unauthorized(message)` (status 401), an exception thrown by a
      route, or `next.handle(request)` for a request no route claims. */
  datatype Response = Ok(body: Body) | Unauthorized(message: string) | Fault(reason: string) | PassThrough

  function Status(r: Response): (s: Option<int>)
    ensures s == Some(200) <==> r.Ok?
    ensures s == Some(401) <==> r.Unauthorized?
    ensures s.None? <==> r.Fault? || r.PassThrough?
  {
    match r
    case Ok(_) => Some(200)
    case Unauthorized(_) => Some(401)
    case _ => None
  }

  /** A route's response, the store after it, and whether the store was written to local
      storage (`localStorage.setItem`) on the way. */
  datatype Outcome = Outcome(response: Response, accounts: seq<Account>, saved: bool)

  // ---------------------------------------------------------------- dispatch

  /** `url.match(/\/accounts\/\d+$/)`: the URL ends in `/accounts/` and a run of digits. */
  predicate MatchesIdPath(url: string): (b: bool)
    ensures b ==> AllDigits(LastSegment(url)) && IdFromUrl(url) == Some(DigitsValue(LastSegment(url)))
    ensures b ==> IsDigit(url[|url| - 1])
  {
    var seg := LastSegment(url);
    if |seg| > 0 && AllDigits(seg) then
      AllDigitsRead(seg);
      var suffix := "/accounts/" + seg;
      assert EndsWith(url, suffix) ==> url[|url| - 1] == suffix[|suffix| - 1] == seg[|seg| - 1];
      EndsWith(url, suffix)
    else false
  }

  /** `handleRoute`: the first case that matches wins. */
  function Dispatch(url: string, verb: string): (r: Route)
    ensures r == RouteAuthenticate ==> verb == "POST" && EndsWith(url, "/accounts/authenticate")
    ensures r == RouteList ==> verb == "GET" && EndsWith(url, "/accounts")
    ensures r in {RouteGetById, RouteUpdate, RouteDelete} ==> MatchesIdPath(url) && IdFromUrl(url).Some?
    ensures MatchesIdPath(url) ==> r == (if verb == "GET" then RouteGetById
                                         else if verb == "PUT" then RouteUpdate
                                         else if verb == "DELETE" then RouteDelete
                                         else RoutePassThrough)
    ensures verb !in {"GET", "POST", "PUT", "DELETE"} ==> r == RoutePassThrough
  {
    IdPathNotNamed(url);
    if EndsWith(url, "/accounts/authenticate") && verb == "POST" then RouteAuthenticate
    else if EndsWith(url, "/accounts") && verb == "GET" then RouteList
    else if MatchesIdPath(url) && verb == "GET" then RouteGetById
    else if MatchesIdPath(url) && verb == "PUT" then RouteUpdate
    else if MatchesIdPath(url) && verb == "DELETE" then RouteDelete
    else RoutePassThrough
  }

  /** `idFromUrl`: `parseInt` of the last path segment; `None` stands for `NaN`, which equals
      no id. */
  function IdFromUrl(url: string): (r: Option<nat>)
    ensures r.None? <==> LastSegment(url) == [] || !IsDigit(LastSegment(url)[0])
  {
    var seg := LastSegment(url);
    var k := LeadingDigitCount(seg);
    if k == 0 then None else Some(DigitsValue(seg[..k]))
  }

  lemma DigitsHaveNoSlash(d: string)
    requires AllDigits(d)
    ensures '/' !in d
  {
  }

  lemma EndsWithConcat(p: string, suffix: string)
    ensures EndsWith(p + suffix, suffix)
  {
    var s := p + suffix;
    assert s[|s| - |suffix|..] == suffix;
  }

  lemma EndsWithJoin(p: string, m: string, d: string)
    ensures EndsWith(p + m + d, m + d)
  {
    assert p + m + d == p + (m + d);
    EndsWithConcat(p, m + d);
  }

  lemma IdPathSegment(p: string, d: string)
    requires AllDigits(d)
    ensures LastSegment(p + "/accounts/" + d) == d
  {
    assert p + "/accounts/" + d == (p + "/accounts") + "/" + d;
    DigitsHaveNoSlash(d);
    LastSegmentAfterSlash(p + "/accounts", d);
  }

  lemma AllDigitsRead(d: string)
    requires |d| > 0 && AllDigits(d)
    ensures LeadingDigitCount(d) == |d| && d[..LeadingDigitCount(d)] == d
  {
    LeadingDigitsOf(d, []);
    assert d + [] == d;
  }

  /** The id read from `/accounts/<digits>` is the number the digits spell. */
  lemma IdPathId(p: string, d: string)
    requires |d| > 0 && AllDigits(d)
    ensures MatchesIdPath(p + "/accounts/" + d)
    ensures IdFromUrl(p + "/accounts/" + d) == Some(DigitsValue(d))
  {
    var url := p + "/accounts/" + d;
    IdPathSegment(p, d);
    EndsWithJoin(p, "/accounts/", d);
    IdPathMatches(url, d);
  }

  /** A URL whose last segment is a digit run `d` and which ends in `/accounts/` + `d`
      matches the id pattern. */
  lemma IdPathMatches(url: string, d: string)
    requires |d| > 0 && AllDigits(d)
    requires LastSegment(url) == d && EndsWith(url, "/accounts/" + d)
    ensures MatchesIdPath(url)
  {
  }

  /** A URL ending in a digit ends in neither named route. */
  lemma DigitEndNotNamed(url: string)
    requires |url| > 0 && IsDigit(url[|url| - 1])
    ensures !EndsWith(url, "/accounts/authenticate") && !EndsWith(url, "/accounts")
  {
  }

  /** A URL of the id pattern ends in neither named route. */
  lemma IdPathNotNamed(url: string)
    ensures MatchesIdPath(url) ==> !EndsWith(url, "/accounts/authenticate") && !EndsWith(url, "/accounts")
  {
    if MatchesIdPath(url) {
      DigitEndNotNamed(url);
    }
  }

  /** `/accounts/<digits>` goes to the id routes by verb, and the id read from it is the
      number those digits spell. */
  lemma IdPathDispatch(p: string, d: string, verb: string)
    requires |d| > 0 && AllDigits(d)
    ensures var url := p + "/accounts/" + d;
            && MatchesIdPath(url)
            && IdFromUrl(url) == Some(DigitsValue(d))
            && Dispatch(url, verb) == (if verb == "GET" then RouteGetById
                                       else if verb == "PUT" then RouteUpdate
                                       else if verb == "DELETE" then RouteDelete
                                       else RoutePassThrough)
  {
    var url := p + "/accounts/" + d;
    IdPathId(p, d);
    assert url[|url| - 1] == d[|d| - 1];
    DigitEndNotNamed(url);
  }

  /** A GET of `/accounts/authenticate` matches no route and passes through. */
  lemma GetAuthenticatePassesThrough(p: string)
    ensures Dispatch(p + "/accounts/authenticate", "GET") == RoutePassThrough
  {
    var url := p + "/accounts/authenticate";
    assert url == (p + "/accounts") + "/" + "authenticate";
    LastSegmentAfterSlash(p + "/accounts", "authenticate");
    assert !IsDigit(LastSegment(url)[0]);
    assert url[|url| - 1] == 'e';
  }

  /** `POST .../accounts/authenticate` authenticates and `GET .../accounts` lists. */
  lemma NamedRoutesDispatch(p: string)
    ensures Dispatch(p + "/accounts/authenticate", "POST") == RouteAuthenticate
    ensures Dispatch(p + "/accounts", "GET") == RouteList
  {
    var a := p + "/accounts/authenticate";
    assert a[|a| - |"/accounts/authenticate"|..] == "/accounts/authenticate";
    var l := p + "/accounts";
    assert l[|l| - |"/accounts"|..] == "/accounts";
  }

  // ---------------------------------------------------------------- routes

  /** The `extraInfo` text given to a new account. */
  function ExtraInfo(name: string): (r: string)
    ensures 30 + |name| <= |r| && r[30..30 + |name|] == name
  {
    "This is some extra info about " + name + " that is saved in the API"
  }

  /** The record created on a first login. */
  function NewAccount(accounts: seq<Account>, facebookId: string, name: string): (r: Account)
    ensures r.facebookId == facebookId && r.name == name && r.token.None?
    ensures forall i :: 0 <= i < |accounts| ==> accounts[i].id < r.id
  {
    Account(NewAccountId(accounts), facebookId, name, ExtraInfo(name), None)
  }

  /** `{...account, token: generateJwtToken(account)}` */
  function WithToken(a: Account, nowMs: int): (r: Account)
    ensures r.(token := a.token) == a
    ensures r.token.Some? && DecodeToken(r.token.value) == Some(Payload(ExpiryFor(nowMs), a.id))
  {
    a.(token := Some(GenerateJwtToken(Payload(ExpiryFor(nowMs), a.id))))
  }

  /** `authenticate`: reject a provider error, otherwise find the record for the provider id or
      append a new one, and answer it with a fresh token. */
  function AuthenticateOutcome(accounts: seq<Account>, data: ProviderResult, nowMs: int): (o: Outcome)
    ensures o.response.Unauthorized? <==> data.ProviderError?
    ensures data.Profile? ==> o.response.Ok? && o.response.body.One?
                              && o.response.body.account.facebookId == data.id
    ensures |accounts| <= |o.accounts| <= |accounts| + 1 && o.accounts[..|accounts|] == accounts
    ensures o.saved <==> |o.accounts| == |accounts| + 1
  {
    match data
    case ProviderError(message) => Outcome(Unauthorized(message.GetOr(DefaultMessage)), accounts, false)
    case Profile(fid, name) =>
      match Find(accounts, ByFacebookId(fid))
      case Some(k) => Outcome(Ok(One(WithToken(accounts[k], nowMs))), accounts, false)
      case None =>
        var created := NewAccount(accounts, fid, name);
        Outcome(Ok(One(WithToken(created, nowMs))), accounts + [created], true)
  }

  /** `getAccounts` */
  function GetAccounts(accounts: seq<Account>, authorization: Option<string>): (r: Response)
    ensures Status(r) == Some(if IsLoggedIn(authorization) then 200 else 401)
    ensures r.Ok? ==> r.body == Many(accounts)
  {
    if !IsLoggedIn(authorization) then Unauthorized(DefaultMessage) else Ok(Many(accounts))
  }

  /** The index of the first record whose id is the (possibly `NaN`) id taken from a URL. */
  function LookupId(accounts: seq<Account>, id: Option<nat>): (r: Option<nat>)
    ensures r.Some? ==> id.Some? && r.value < |accounts| && accounts[r.value].id == id.value
    ensures r.Some? ==> forall j :: 0 <= j < r.value ==> accounts[j].id != id.value
    ensures r.None? <==> id.None? || forall j :: 0 <= j < |accounts| ==> accounts[j].id != id.value
  {
    match id
    case None => None
    case Some(i) => Find(accounts, ById(i))
  }

  /** `getAccountById`: the record with the URL's id, or an empty body when there is none. */
  function GetAccountById(accounts: seq<Account>, authorization: Option<string>, url: string): (r: Response)
    ensures !IsLoggedIn(authorization) <==> r == Unauthorized(DefaultMessage)
    ensures IsLoggedIn(authorization) ==> r.Ok? && !r.body.Many?
    ensures r.Ok? && r.body.One? ==> r.body.account in accounts && IdFromUrl(url) == Some(r.body.account.id)
    ensures r == Ok(Empty) <==> IsLoggedIn(authorization) && LookupId(accounts, IdFromUrl(url)).None?
    ensures IsLoggedIn(authorization) && LookupId(accounts, IdFromUrl(url)).Some? ==>
              r == Ok(One(accounts[LookupId(accounts, IdFromUrl(url)).value]))
  {
    if !IsLoggedIn(authorization) then Unauthorized(DefaultMessage)
    else
      match LookupId(accounts, IdFromUrl(url))
      case None => Ok(Empty)
      case Some(k) => Ok(One(accounts[k]))
  }

  /** `updateAccount`: merge the body into the first record with the URL's id and save. */
  function UpdateOutcome(accounts: seq<Account>, authorization: Option<string>, url: string, params: Patch): (o: Outcome)
    ensures |o.accounts| == |accounts|
    ensures o.response.Unauthorized? <==> !IsLoggedIn(authorization)
    ensures o.saved <==> o.response.Ok?
    ensures !o.saved ==> o.accounts == accounts
    ensures o.response.Ok? ==> o.response.body.One? && o.response.body.account in o.accounts
  {
    if !IsLoggedIn(authorization) then Outcome(Unauthorized(DefaultMessage), accounts, false)
    else
      match LookupId(accounts, IdFromUrl(url))
      case None => Outcome(Fault(TypeError), accounts, false)
      case Some(k) =>
        var updated := Assign(accounts[k], params);
        assert accounts[k := updated][k] == updated;
        Outcome(Ok(One(updated)), accounts[k := updated], true)
  }

  /** The store after `accounts.filter(x => x.id !== idFromUrl())`. */
  function Remaining(accounts: seq<Account>, id: Option<nat>): (r: seq<Account>)
    ensures |r| <= |accounts|
    ensures forall a :: a in r <==> a in accounts && (id.None? || a.id != id.value)
  {
    match id
    case None => accounts
    case Some(i) => WithoutIdMembers(accounts, i); WithoutId(accounts, i)
  }

  /** `deleteAccount`: drop the records with the URL's id, save, and answer an empty 200. */
  function DeleteOutcome(accounts: seq<Account>, authorization: Option<string>, url: string): (o: Outcome)
    ensures o.saved <==> IsLoggedIn(authorization)
    ensures o.saved ==> o.response == Ok(Empty)
    ensures !o.saved ==> o.response == Unauthorized(DefaultMessage) && o.accounts == accounts
    ensures forall a :: a in o.accounts ==> a in accounts
  {
    if !IsLoggedIn(authorization) then Outcome(Unauthorized(DefaultMessage), accounts, false)
    else Outcome(Ok(Empty), Remaining(accounts, IdFromUrl(url)), true)
  }

  /** `intercept`: dispatch a request and run its route. */
  function HandleOutcome(accounts: seq<Account>, req: Request, data: ProviderResult, nowMs: int): (o: Outcome)
    ensures o.response.PassThrough? <==> Dispatch(req.url, req.verb) == RoutePassThrough
    ensures |o.accounts| <= |accounts| + 1
    ensures !o.saved ==> o.accounts == accounts
  {
    match Dispatch(req.url, req.verb)
    case RouteAuthenticate => AuthenticateOutcome(accounts, data, nowMs)
    case RouteList => Outcome(GetAccounts(accounts, req.authorization), accounts, false)
    case RouteGetById => Outcome(GetAccountById(accounts, req.authorization, req.url), accounts, false)
    case RouteUpdate => UpdateOutcome(accounts, req.authorization, req.url, req.body)
    case RouteDelete => DeleteOutcome(accounts, req.authorization, req.url)
    case RoutePassThrough => Outcome(PassThrough, accounts, false)
  }

  // ---------------------------------------------------------------- properties

  /** Find-or-create: a known provider id leaves the store and local storage alone and answers
      the first record for it; an unknown one appends exactly one new record with a fresh id.
      Either way the answer carries a token for the answered record. */
  lemma AuthenticateFindOrCreate(accounts: seq<Account>, fid: string, name: string, nowMs: int)
    ensures var o := AuthenticateOutcome(accounts, Profile(fid, name), nowMs);
            && Status(o.response) == Some(200) && o.response.body.One?
            && var a := o.response.body.account;
            && a.facebookId == fid
            && a.token == Some(GenerateJwtToken(Payload(ExpiryFor(nowMs), a.id)))
            && DecodeToken(a.token.value) == Some(Payload(ExpiryFor(nowMs), a.id))
            && ((exists i :: 0 <= i < |accounts| && accounts[i].facebookId == fid) ==>
                  && o.accounts == accounts && !o.saved
                  && exists i :: 0 <= i < |accounts| && a == accounts[i].(token := a.token)
                                 && forall j :: 0 <= j < i ==> accounts[j].facebookId != fid)
            && ((forall i :: 0 <= i < |accounts| ==> accounts[i].facebookId != fid) ==>
                  && o.saved && |o.accounts| == |accounts| + 1
                  && o.accounts[..|accounts|] == accounts
                  && o.accounts[|accounts|] == Account(a.id, fid, name, ExtraInfo(name), None)
                  && a == o.accounts[|accounts|].(token := a.token)
                  && a.name == name && a.extraInfo == ExtraInfo(name)
                  && a.id == NewAccountId(accounts)
                  && forall i :: 0 <= i < |accounts| ==> accounts[i].id < a.id)
  {
    var o := AuthenticateOutcome(accounts, Profile(fid, name), nowMs);
    var a := o.response.body.account;
    match Find(accounts, ByFacebookId(fid))
    case Some(k) =>
      assert o == Outcome(Ok(One(WithToken(accounts[k], nowMs))), accounts, false);
      assert a == accounts[k].(token := a.token);
    case None =>
      var created := NewAccount(accounts, fid, name);
      assert o == Outcome(Ok(One(WithToken(created, nowMs))), accounts + [created], true);
      assert a == created.(token := a.token);
      assert (accounts + [created])[..|accounts|] == accounts;
      assert (accounts + [created])[|accounts|] == created;
  }

  /** Logging in twice with the same provider id answers the same internal id and leaves
      exactly the store the first login left, with nothing written the second time. */
  lemma AuthenticateIdempotent(accounts: seq<Account>, fid: string, name1: string, name2: string, t1: int, t2: int)
    ensures var o1 := AuthenticateOutcome(accounts, Profile(fid, name1), t1);
            var o2 := AuthenticateOutcome(o1.accounts, Profile(fid, name2), t2);
            && o2.accounts == o1.accounts && !o2.saved
            && o1.response.body.One? && o2.response.body.One?
            && o2.response.body.account.id == o1.response.body.account.id
            && |o1.accounts| <= |accounts| + 1
  {
    var k := ByFacebookId(fid);
    FindAppend(accounts, NewAccount(accounts, fid, name1), k);
  }

  /** Authenticating keeps the ids and the provider ids of the store unique. */
  lemma AuthenticateKeepsUnique(accounts: seq<Account>, data: ProviderResult, nowMs: int)
    requires UniqueIds(accounts) && UniqueFacebookIds(accounts)
    ensures var o := AuthenticateOutcome(accounts, data, nowMs);
            UniqueIds(o.accounts) && UniqueFacebookIds(o.accounts)
  {
    match data
    case ProviderError(_) =>
    case Profile(fid, name) =>
      if Find(accounts, ByFacebookId(fid)).None? {
        AppendKeepsUnique(accounts, NewAccount(accounts, fid, name));
      }
  }

  /** A provider error is a 401 carrying the provider's message (or the default one), and the
      store is left alone. */
  lemma ProviderErrorRejected(accounts: seq<Account>, message: Option<string>, nowMs: int)
    ensures var o := AuthenticateOutcome(accounts, ProviderError(message), nowMs);
            && Status(o.response) == Some(401)
            && o.response.message == (if message.Some? then message.value else "Unauthorized")
            && o.accounts == accounts && !o.saved
  {
  }

  /** A request for one of the four protected routes without a bearer token is a 401
      `Unauthorized`, and neither the store nor local storage changes. */
  lemma UnauthorizedLeavesStore(accounts: seq<Account>, req: Request, data: ProviderResult, nowMs: int)
    requires Dispatch(req.url, req.verb) in {RouteList, RouteGetById, RouteUpdate, RouteDelete}
    requires !IsLoggedIn(req.authorization)
    ensures var o := HandleOutcome(accounts, req, data, nowMs);
            && o.response == Unauthorized("Unauthorized") && Status(o.response) == Some(401)
            && o.accounts == accounts && !o.saved
  {
  }

  /** A route changes the store only when it also writes it to local storage, and only the
      create, update and delete paths write. */
  lemma EveryChangeIsSaved(accounts: seq<Account>, req: Request, data: ProviderResult, nowMs: int)
    ensures var o := HandleOutcome(accounts, req, data, nowMs);
            && (o.accounts != accounts ==> o.saved)
            && (o.saved ==> Status(o.response) == Some(200) &&
                            Dispatch(req.url, req.verb) in {RouteAuthenticate, RouteUpdate, RouteDelete})
  {
  }

  /** Update merges the body into the record at the first index with the URL's id and leaves
      every other record as it was; a missing id throws and changes nothing. */
  lemma UpdateTouchesOnlyTarget(accounts: seq<Account>, authorization: Option<string>, url: string, params: Patch)
    requires IsLoggedIn(authorization)
    ensures var o := UpdateOutcome(accounts, authorization, url, params);
            && |o.accounts| == |accounts|
            && (LookupId(accounts, IdFromUrl(url)).None? ==>
                  o.response == Fault(TypeError) && o.accounts == accounts && !o.saved)
            && (LookupId(accounts, IdFromUrl(url)).Some? ==>
                  var k := LookupId(accounts, IdFromUrl(url)).value;
                  && o.saved && o.response == Ok(One(o.accounts[k]))
                  && o.accounts[k] == Assign(accounts[k], params)
                  && (forall j :: 0 <= j < k ==> accounts[j].id != accounts[k].id)
                  && forall j :: 0 <= j < |accounts| && j != k ==> o.accounts[j] == accounts[j])
  {
  }

  /** A body without an `id` key keeps the ids of the store unique. */
  lemma UpdateKeepsUniqueIds(accounts: seq<Account>, authorization: Option<string>, url: string, params: Patch)
    requires UniqueIds(accounts) && params.id.None?
    ensures UniqueIds(UpdateOutcome(accounts, authorization, url, params).accounts)
  {
    var o := UpdateOutcome(accounts, authorization, url, params);
    assert forall j :: 0 <= j < |accounts| ==> o.accounts[j].id == accounts[j].id;
  }

  /** A body that carries the id of another record gives two records the same id. */
  lemma UpdateCanDuplicateIds(accounts: seq<Account>, authorization: Option<string>, url: string, j: nat)
    requires IsLoggedIn(authorization) && j < |accounts|
    requires LookupId(accounts, IdFromUrl(url)).Some? && LookupId(accounts, IdFromUrl(url)).value != j
    ensures !UniqueIds(UpdateOutcome(accounts, authorization, url, NoChange.(id := Some(accounts[j].id))).accounts)
  {
    var k := LookupId(accounts, IdFromUrl(url)).value;
    var o := UpdateOutcome(accounts, authorization, url, NoChange.(id := Some(accounts[j].id)));
    assert o.accounts[k].id == o.accounts[j].id;
  }

  /** Delete keeps exactly the records whose id differs from the URL's, in their order; with
      unique ids that is the store with one record cut out. The answer is an empty 200 and
      the result is saved. */
  lemma DeleteKeepsOthersInOrder(accounts: seq<Account>, authorization: Option<string>, url: string, k: nat)
    requires IsLoggedIn(authorization)
    requires UniqueIds(accounts) && k < |accounts| && IdFromUrl(url) == Some(accounts[k].id)
    ensures var o := DeleteOutcome(accounts, authorization, url);
            && o.response == Ok(Empty) && o.saved
            && o.accounts == accounts[..k] + accounts[k + 1..]
            && UniqueIds(o.accounts)
  {
    WithoutUniqueId(accounts, k);
    WithoutIdKeepsUnique(accounts, accounts[k].id);
  }

  /** Deleting an id no record has is a 200 with an empty body that leaves the store as it
      is; so deleting the same id again is a no-op. */
  lemma DeleteAbsentIsNoOp(accounts: seq<Account>, authorization: Option<string>, url: string)
    requires IsLoggedIn(authorization)
    ensures var o := DeleteOutcome(accounts, authorization, url);
            var again := DeleteOutcome(o.accounts, authorization, url);
            && o.response == Ok(Empty) && again.response == Ok(Empty)
            && again.accounts == o.accounts
            && ((IdFromUrl(url).None? || forall i :: 0 <= i < |accounts| ==> accounts[i].id != IdFromUrl(url).value)
                  ==> o.accounts == accounts)
  {
    match IdFromUrl(url)
    case None =>
    case Some(id) =>
      WithoutIdIdempotent(accounts, id);
      if forall i :: 0 <= i < |accounts| ==> accounts[i].id != id {
        WithoutAbsentId(accounts, id);
      }
  }

  /** A first login with provider id "fb123" on an empty store gives account 1, answered
      with status 200 and a token that decodes to id 1 and the expiry 15 minutes ahead. */
  lemma FirstLoginOnEmptyStore(name: string, nowMs: int)
    ensures var o := AuthenticateOutcome([], Profile("fb123", name), nowMs);
            && o.accounts == [Account(1, "fb123", name, ExtraInfo(name), None)]
            && Status(o.response) == Some(200)
            && o.response.body.One? && o.response.body.account.id == 1
            && o.response.body.account.token.Some?
            && DecodeToken(o.response.body.account.token.value) == Some(Payload(ExpiryFor(nowMs), 1))
  {
  }

  /** The new id is one more than the largest, whatever the gaps. */
  lemma NewIdAfterGaps()
    ensures NewAccountId([Account(1, "a", "", "", None), Account(3, "b", "", "", None),
                          Account(5, "c", "", "", None)]) == 6
  {
  }

  // ---------------------------------------------------------------- the interceptor

  /** The store that the interceptor closes over (the module-level `accounts`) and the local
      storage slot it writes to. */
  class Interceptor {
    var accounts: seq<Account>
    /** The persisted JSON array, `None` while the key is absent. */
    var slot: Option<seq<Account>>

    /** Loading local storage again would give the store in memory. */
    predicate Persisted()
      reads this
    {
      accounts == slot.GetOr([])
    }

    /** `JSON.parse(localStorage.getItem(accountsKey)) || []` at page load. */
    constructor (stored: Option<seq<Account>>)
      ensures slot == stored && accounts == stored.GetOr([])
      ensures Persisted()
    {
      slot := stored;
      accounts := stored.GetOr([]);
    }

    /** `localStorage.setItem(accountsKey, JSON.stringify(accounts))` */
    method Save()
      modifies this`slot
      ensures slot == Some(accounts) && Persisted()
    {
      slot := Some(accounts);
    }

    method Authenticate(data: ProviderResult, nowMs: int) returns (resp: Response)
      requires Persisted()
      modifies this
      ensures Persisted()
      ensures var o := AuthenticateOutcome(old(accounts), data, nowMs);
              resp == o.response && accounts == o.accounts &&
              slot == if o.saved then Some(accounts) else old(slot)
    {
      match data
      case ProviderError(message) =>
        resp := Unauthorized(message.GetOr(DefaultMessage));
      case Profile(fid, name) =>
        var found := Find(accounts, ByFacebookId(fid));
        var account: Account;
        if found.Some? {
          account := accounts[found.value];
        } else {
          account := NewAccount(accounts, fid, name);
          accounts := accounts + [account];
          Save();
        }
        resp := Ok(One(WithToken(account, nowMs)));
    }

    method UpdateAccount(authorization: Option<string>, url: string, params: Patch) returns (resp: Response)
      requires Persisted()
      modifies this
      ensures Persisted()
      ensures var o := UpdateOutcome(old(accounts), authorization, url, params);
              resp == o.response && accounts == o.accounts &&
              slot == if o.saved then Some(accounts) else old(slot)
    {
      if !IsLoggedIn(authorization) {
        return Unauthorized(DefaultMessage);
      }
      var found := LookupId(accounts, IdFromUrl(url));
      if found.None? {
        return Fault(TypeError);
      }
      var account := Assign(accounts[found.value], params);
      accounts := accounts[found.value := account];
      Save();
      resp := Ok(One(account));
    }

    method DeleteAccount(authorization: Option<string>, url: string) returns (resp: Response)
      requires Persisted()
      modifies this
      ensures Persisted()
      ensures var o := DeleteOutcome(old(accounts), authorization, url);
              resp == o.response && accounts == o.accounts &&
              slot == if o.saved then Some(accounts) else old(slot)
    {
      if !IsLoggedIn(authorization) {
        return Unauthorized(DefaultMessage);
      }
      accounts := Remaining(accounts, IdFromUrl(url));
      Save();
      resp := Ok(Empty);
    }

    /** `intercept`: `data` is what the provider answers if the request is an authentication. */
    method Intercept(req: Request, data: ProviderResult, nowMs: int) returns (resp: Response)
      requires Persisted()
      modifies this
      ensures Persisted()
      ensures var o := HandleOutcome(old(accounts), req, data, nowMs);
              resp == o.response && accounts == o.accounts &&
              slot == if o.saved then Some(accounts) else old(slot)
    {
      match Dispatch(req.url, req.verb)
      case RouteAuthenticate => resp := Authenticate(data, nowMs);
      case RouteList => resp := GetAccounts(accounts, req.authorization);
      case RouteGetById => resp := GetAccountById(accounts, req.authorization, req.url);
      case RouteUpdate => resp := UpdateAccount(req.authorization, req.url, req.body);
      case RouteDelete => resp := DeleteAccount(req.authorization, req.url);
      case RoutePassThrough => resp := PassThrough;
    }
  }
}
