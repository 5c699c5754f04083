/**
 * Subscription webhooks: one delivery. It runs in one database transaction: it matches the event
 * to an account, locks the account's row, asks Stripe for the live status, claims the event id,
 * writes and commits. Each function here is one stretch of a delivery between two points where
 * other transactions can get in between.
 */
module StripeWebhooks {
  import opened OrderedDict

  datatype Tier = Free | Premium

  datatype Kind = CheckoutCompleted | Created | Updated | Deleted | Unhandled {
    predicate Subscription() { Created? || Updated? || Deleted? }
  }

  /** The fields of an event's object; an empty one counts as missing. */
  datatype Data = Data(
    installation: Option<int>,
    org: Option<string>,
    customer: Option<string>,
    subscription: Option<string>,
    status: Option<string>)

  datatype Event = Event(id: Option<string>, kind: Kind, data: Data)

  datatype Account = Account(installation: int, org: string, tier: Tier, customer: Option<string>)

  datatype Settings = Settings(production: bool, secret: bool, key: bool)

  /** `signed`: the signature matches the webhook secret. `body` is absent when it is not JSON. */
  datatype Request = Request(signed: bool, body: Option<Event>)

  datatype Outcome = Applied | Ignored | Refused(code: int)

  predicate Grants(status: Option<string>) {
    status == Some("active") || status == Some("trialing")
  }

  function TierFor(status: Option<string>): Tier {
    if Grants(status) then Premium else Free
  }

  // ---------------------------------------------------------------- matching an account

  datatype Key = ByInstallation(installation: int) | ByOrg(org: string) | ByCustomer(customer: string)

  datatype Found = NoRow | Row(account: nat) | SeveralRows

  predicate Has(account: Account, key: Key) {
    match key
    case ByInstallation(installation) => account.installation == installation
    case ByOrg(org) => account.org == org
    case ByCustomer(customer) => account.customer == Some(customer)
  }

  function Rows(accounts: seq<Account>, key: Key): (rows: seq<nat>)
    ensures forall a :: a in rows <==> 0 <= a < |accounts| && Has(accounts[a], key)
  {
    if accounts == [] then []
    else
      var last := |accounts| - 1;
      Rows(accounts[..last], key) + if Has(accounts[last], key) then [last] else []
  }

  /** `scalar_one_or_none`. */
  function OneOrNone(rows: seq<nat>): Found {
    if rows == [] then NoRow else if |rows| == 1 then Row(rows[0]) else SeveralRows
  }

  function Select(accounts: seq<Account>, key: Key): Found {
    OneOrNone(Rows(accounts, key))
  }

  /** What the queries for an account look for, one after the other. */
  function KeysOf(data: Data): (keys: seq<Key>)
    ensures |keys| <= 3
  {
    (if data.installation.Some? then [ByInstallation(data.installation.value)] else [])
    + (if data.org.Some? then [ByOrg(data.org.value)] else [])
    + (if data.customer.Some? then [ByCustomer(data.customer.value)] else [])
  }

  function FirstOf(accounts: seq<Account>, keys: seq<Key>): Found {
    if keys == [] then NoRow
    else
      var found := Select(accounts, keys[0]);
      if found.NoRow? then FirstOf(accounts, keys[1..]) else found
  }

  function Resolve(accounts: seq<Account>, data: Data): Found {
    FirstOf(accounts, KeysOf(data))
  }

  lemma {:induction false} FirstInTurn(accounts: seq<Account>, a: seq<Key>, b: seq<Key>)
    ensures FirstOf(accounts, a + b) == if FirstOf(accounts, a).NoRow? then FirstOf(accounts, b) else FirstOf(accounts, a)
  {
    if a == [] {
      assert a + b == b;
    } else {
      assert (a + b)[1..] == a[1..] + b;
      FirstInTurn(accounts, a[1..], b);
    }
  }

  lemma SelectedExists(accounts: seq<Account>, key: Key)
    ensures var r := Select(accounts, key); r.Row? ==> r.account < |accounts| && Has(accounts[r.account], key)
  {
    var r := Select(accounts, key);
    if r.Row? { assert r.account in Rows(accounts, key); }
  }

  lemma {:induction false} FirstExists(accounts: seq<Account>, keys: seq<Key>)
    ensures var r := FirstOf(accounts, keys);
      r.Row? ==> r.account < |accounts| && exists key :: key in keys && Has(accounts[r.account], key)
  {
    if keys != [] {
      SelectedExists(accounts, keys[0]);
      FirstExists(accounts, keys[1..]);
    }
  }

  /** A matched account carries one of the event's identifiers. */
  lemma ResolvedExists(accounts: seq<Account>, data: Data)
    ensures var r := Resolve(accounts, data);
      r.Row? ==>
        && r.account < |accounts|
        && ((data.installation.Some? && Has(accounts[r.account], ByInstallation(data.installation.value)))
            || (data.org.Some? && Has(accounts[r.account], ByOrg(data.org.value)))
            || (data.customer.Some? && Has(accounts[r.account], ByCustomer(data.customer.value))))
  {
    FirstExists(accounts, KeysOf(data));
    hide Has, FirstOf;
  }

  /** The accounts with this installation, login or customer id. */
  function WithInstallation(accounts: seq<Account>, installation: int): set<nat> {
    set a: nat | a < |accounts| && accounts[a].installation == installation
  }

  function WithOrg(accounts: seq<Account>, org: string): set<nat> {
    set a: nat | a < |accounts| && accounts[a].org == org
  }

  function WithCustomer(accounts: seq<Account>, customer: string): set<nat> {
    set a: nat | a < |accounts| && accounts[a].customer == Some(customer)
  }

  lemma {:induction false} RowsOnce(accounts: seq<Account>, key: Key)
    ensures forall i, j :: 0 <= i < j < |Rows(accounts, key)| ==> Rows(accounts, key)[i] != Rows(accounts, key)[j]
  {
    if accounts != [] {
      var last := |accounts| - 1;
      var before := Rows(accounts[..last], key);
      RowsOnce(accounts[..last], key);
      assert |accounts[..last]| == last;
      forall i | 0 <= i < |before| ensures before[i] < last { assert before[i] in before; }
      assert Rows(accounts, key) == before || Rows(accounts, key) == before + [last];
      hide Has;
    }
  }

  /** What a query finds when these are the accounts it is for. */
  ghost predicate Finds(found: Found, matching: set<nat>) {
    && (found.NoRow? <==> matching == {})
    && (found.Row? ==> matching == {found.account})
    && (found.SeveralRows? ==> exists a, b :: a in matching && b in matching && a != b)
  }

  lemma RowsFind(rows: seq<nat>, matching: set<nat>)
    requires forall a: nat :: a in matching <==> a in rows
    requires forall i, j :: 0 <= i < j < |rows| ==> rows[i] != rows[j]
    ensures Finds(OneOrNone(rows), matching)
  {
    if rows == [] {
      assert matching == {};
    } else if |rows| == 1 {
      assert rows[0] in rows && forall a :: a in rows ==> a == rows[0];
      assert matching == {rows[0]};
    } else {
      assert rows[0] in rows && rows[1] in rows && rows[0] != rows[1];
    }
  }

  lemma SelectFinds(accounts: seq<Account>, key: Key)
    ensures Finds(Select(accounts, key), match key
      case ByInstallation(installation) => WithInstallation(accounts, installation)
      case ByOrg(org) => WithOrg(accounts, org)
      case ByCustomer(customer) => WithCustomer(accounts, customer))
  {
    hide Finds, OneOrNone;
    RowsOnce(accounts, key);
    RowsFind(Rows(accounts, key), match key
      case ByInstallation(installation) => WithInstallation(accounts, installation)
      case ByOrg(org) => WithOrg(accounts, org)
      case ByCustomer(customer) => WithCustomer(accounts, customer));
  }

  /** The installation decides if any account has it, then the login, then the customer id. */
  lemma ResolvesInOrder(accounts: seq<Account>, data: Data)
    ensures var byInstallation := if data.installation.Some? then WithInstallation(accounts, data.installation.value) else {};
      var byOrg := if data.org.Some? then WithOrg(accounts, data.org.value) else {};
      var byCustomer := if data.customer.Some? then WithCustomer(accounts, data.customer.value) else {};
      Finds(Resolve(accounts, data), if byInstallation != {} then byInstallation else if byOrg != {} then byOrg else byCustomer)
  {
    var first := if data.installation.Some? then [ByInstallation(data.installation.value)] else [];
    var second := if data.org.Some? then [ByOrg(data.org.value)] else [];
    var third := if data.customer.Some? then [ByCustomer(data.customer.value)] else [];
    FirstInTurn(accounts, first + second, third);
    FirstInTurn(accounts, first, second);
    if data.installation.Some? { SelectFinds(accounts, first[0]); }
    if data.org.Some? { SelectFinds(accounts, second[0]); }
    if data.customer.Some? { SelectFinds(accounts, third[0]); }
    OneKey(accounts, first);
    OneKey(accounts, second);
    OneKey(accounts, third);
    hide Select, FirstOf, WithInstallation, WithOrg, WithCustomer;
  }

  lemma OneKey(accounts: seq<Account>, keys: seq<Key>)
    requires |keys| <= 1
    ensures FirstOf(accounts, keys) == if keys == [] then NoRow else Select(accounts, keys[0])
  {
    if keys != [] { assert keys[1..] == []; }
  }

  // ---------------------------------------------------------------- the stretches of one delivery

  datatype Place =
    | Received
    | Querying(keys: seq<Key>)
    | AtRow(account: nat)
    | Locked(account: nat)
    | Checked(account: nat, found: Option<string>, at: nat)
    | Claimed(account: nat, found: Option<string>, at: nat)
    | Unmatched(keys: seq<Key>)
    | Matched(known: Option<nat>, seen: Option<string>, at: nat)
    | Done(outcome: Outcome)
  {
    /** The account whose row this transaction has locked. */
    function LockedRow(): Option<nat> {
      if Locked? || Checked? || Claimed? then Some(account) else None
    }

    /** The transaction has inserted the event id and not committed it. */
    predicate Pending() { Claimed? || Unmatched? || Matched? }
  }

  /** The request bears the webhook secret's signature, or there is no secret and this is not production. */
  predicate Genuine(s: Settings, r: Request) {
    (s.secret && r.signed) || (!s.secret && !s.production)
  }

  /** The answer to a request that is not handled at all. */
  function Screened(s: Settings, r: Request): Option<Outcome> {
    if s.production && !s.secret then Some(Refused(500))
    else if !(if s.secret then r.signed else !s.production) then Some(Refused(400))
    else match r.body
      case None => Some(Refused(400))
      case Some(e) => if e.kind == Unhandled then Some(Ignored) else None
  }

  /** A subscription event is matched to its account first, a checkout claimed first. */
  function Arrived(e: Event): Place {
    if e.kind.Subscription() then Querying(KeysOf(e.data)) else Received
  }

  /** Forged and unreadable requests are refused, events of other kinds ignored, and only the rest handled. */
  lemma ScreenedIff(s: Settings, r: Request)
    ensures Screened(s, r) == Some(Refused(500)) <==> s.production && !s.secret
    ensures Screened(s, r) == Some(Refused(400)) <==> (s.secret && !r.signed) || (Genuine(s, r) && r.body.None?)
    ensures Screened(s, r) == Some(Ignored) <==> Genuine(s, r) && r.body.Some? && r.body.value.kind == Unhandled
    ensures Screened(s, r) == None <==> Genuine(s, r) && r.body.Some? && r.body.value.kind != Unhandled
  {
  }

  function AfterFound(s: Settings, found: Found): Place {
    match found
    case NoRow => Done(Refused(400))
    case SeveralRows => Done(Refused(500))
    case Row(a) => if s.production && !s.key then Done(Refused(500)) else AtRow(a)
  }

  /** One of the queries for the account of a subscription event. */
  function AfterQuery(s: Settings, accounts: seq<Account>, keys: seq<Key>): Place {
    var found := if keys == [] then NoRow else Select(accounts, keys[0]);
    if found.NoRow? && |keys| > 1 then Querying(keys[1..]) else AfterFound(s, found)
  }

  /** `answer` is what Stripe says, or nothing if the call fails. */
  function AfterLookup(s: Settings, e: Event, a: nat, answer: Option<string>, at: nat): Place {
    if e.data.subscription.None? || !s.key then Checked(a, None, at)
    else match answer
      case None => Done(Refused(400))
      case Some(status) => Checked(a, Some(status), at)
  }

  function AfterClaim(e: Event, place: Place, claims: set<string>): Place {
    if e.id.None? || e.id.value in claims then Done(Ignored)
    else if place.Checked? then Claimed(place.account, place.found, place.at)
    else Unmatched(KeysOf(e.data))
  }

  function AfterKnown(accounts: seq<Account>, found: Found, at: nat): Place {
    match found
    case NoRow => Matched(None, None, at)
    case SeveralRows => Done(Refused(500))
    case Row(a) => if a < |accounts| then Matched(Some(a), accounts[a].customer, at) else Done(Refused(500))
  }

  /** One of the queries for the account of a checkout. */
  function AfterMatch(accounts: seq<Account>, keys: seq<Key>, at: nat): Place {
    var found := if keys == [] then NoRow else Select(accounts, keys[0]);
    if found.NoRow? && |keys| > 1 then Unmatched(keys[1..]) else AfterKnown(accounts, found, at)
  }

  /**
   * What a transaction writes: `found` is the status it looked up, `seen` the customer id it read.
   * `at` is when it read them and `commitAt` when it commits.
   */
  datatype Entry = Entry(delivery: nat, event: Event, account: Option<nat>, found: Option<string>, seen: Option<string>,
                         at: nat, commitAt: nat)
  {
    function Status(): Option<string> { if found.Some? then found else event.data.status }

    predicate Stores() {
      event.kind == CheckoutCompleted && account.Some? && event.data.customer.Some? && seen.None?
    }

    predicate Checks(a: nat) { event.kind.Subscription() && account == Some(a) }

    predicate StoresFor(a: nat) { Stores() && account == Some(a) }

    function NewTier(tier: Tier): Tier {
      if event.kind != Deleted then TierFor(Status())
      else if !Grants(Status()) then Free
      else tier
    }
  }

  function EntryOf(t: nat, e: Event, place: Place, commitAt: nat): Entry
    requires place.Claimed? || place.Matched?
  {
    if place.Claimed? then Entry(t, e, Some(place.account), place.found, None, place.at, commitAt)
    else Entry(t, e, place.known, None, place.seen, place.at, commitAt)
  }

  /** Another account has this customer id, and the column is unique. */
  predicate Clashes(accounts: seq<Account>, entry: Entry) {
    entry.Stores() && exists b :: 0 <= b < |accounts| && b != entry.account.value && accounts[b].customer == entry.event.data.customer
  }

  function Write(accounts: seq<Account>, entry: Entry): (r: seq<Account>)
    ensures |r| == |accounts|
  {
    if entry.account.None? || entry.account.value >= |accounts| then accounts
    else
      var a := entry.account.value;
      if entry.Stores() then accounts[a := accounts[a].(customer := entry.event.data.customer)]
      else if entry.event.kind.Subscription() then accounts[a := accounts[a].(tier := entry.NewTier(accounts[a].tier))]
      else accounts
  }

  /** The columns of an account that deliveries write. */
  datatype Billing = Billing(tier: Tier, customer: Option<string>) {
    function After(entry: Entry): Billing {
      if entry.Stores() then this.(customer := entry.event.data.customer)
      else if entry.event.kind.Subscription() then this.(tier := entry.NewTier(tier))
      else this
    }
  }

  function BillingOf(account: Account): Billing {
    Billing(account.tier, account.customer)
  }

  /** A transaction writes the billing of its account and nothing else. */
  lemma WriteIs(accounts: seq<Account>, entry: Entry, a: nat)
    requires a < |accounts|
    ensures var accounts' := Write(accounts, entry);
      && BillingOf(accounts'[a]) == (if entry.account == Some(a) then BillingOf(accounts[a]).After(entry) else BillingOf(accounts[a]))
      && accounts'[a].installation == accounts[a].installation && accounts'[a].org == accounts[a].org
  {
  }

  // ---------------------------------------------------------------- one delivery on its own

  datatype Result = Result(accounts: seq<Account>, claims: set<string>, outcome: Outcome)

  function Finished(accounts: seq<Account>, claims: set<string>, e: Event, place: Place): Result
    requires (place.Claimed? || place.Matched?) && e.id.Some?
  {
    var entry := EntryOf(0, e, place, 0);
    if Clashes(accounts, entry) then Result(accounts, claims, Refused(500))
    else Result(Write(accounts, entry), claims + {e.id.value}, Applied)
  }

  function FromClaim(accounts: seq<Account>, claims: set<string>, e: Event, place: Place): Result {
    var claimed := AfterClaim(e, place, claims);
    if claimed.Done? then Result(accounts, claims, claimed.outcome) else
    var matched := if claimed.Unmatched? then AfterKnown(accounts, Resolve(accounts, e.data), 0) else claimed;
    if matched.Done? then Result(accounts, claims, matched.outcome) else
    Finished(accounts, claims, e, matched)
  }

  /** What a delivery does when nothing happens between its steps. */
  function Deliver(s: Settings, accounts: seq<Account>, claims: set<string>, r: Request, answer: Option<string>): Result {
    match Screened(s, r)
    case Some(outcome) => Result(accounts, claims, outcome)
    case None =>
      var e := r.body.value;
      var resolved := if e.kind.Subscription() then AfterFound(s, Resolve(accounts, e.data)) else Received;
      if resolved.Done? then Result(accounts, claims, resolved.outcome) else
      var checked := if resolved.AtRow? then AfterLookup(s, e, resolved.account, answer, 0) else Received;
      if checked.Done? then Result(accounts, claims, checked.outcome) else
      FromClaim(accounts, claims, e, checked)
  }

  /** The tables the handler works on, and what it has not committed yet. */
  class Database {
    var accounts: seq<Account>
    var claims: set<string>
    var pending: Option<string>

    constructor (accounts: seq<Account>, claims: set<string>)
      ensures this.accounts == accounts && this.claims == claims && pending == None
    {
      this.accounts, this.claims, pending := accounts, claims, None;
    }

    method GetAccount(data: Data) returns (found: Found)
      ensures found == Resolve(accounts, data)
    {
      hide Select;
      ghost var first := if data.installation.Some? then [ByInstallation(data.installation.value)] else [];
      ghost var second := if data.org.Some? then [ByOrg(data.org.value)] else [];
      ghost var third := if data.customer.Some? then [ByCustomer(data.customer.value)] else [];
      FirstInTurn(accounts, first + second, third);
      FirstInTurn(accounts, first, second);
      if data.installation.Some? {
        found := Select(accounts, ByInstallation(data.installation.value));
        if found != NoRow { return; }
      }
      if data.org.Some? {
        found := Select(accounts, ByOrg(data.org.value));
        if found != NoRow { return; }
      }
      if data.customer.Some? {
        found := Select(accounts, ByCustomer(data.customer.value));
        if found != NoRow { return; }
      }
      return NoRow;
    }

    method ClaimEvent(id: Option<string>) returns (claimed: bool)
      modifies this`pending
      ensures claimed <==> id.Some? && id.value !in claims
      ensures pending == if claimed then id else old(pending)
    {
      if id.None? || id.value in claims {
        return false;
      }
      pending := id;
      return true;
    }

    method Rollback()
      modifies this`pending
      ensures pending == None
    {
      pending := None;
    }

    /** Writes the changed account row and the claim together, unless a customer id would repeat. */
    method Commit(entry: Entry) returns (committed: bool)
      requires pending.Some?
      modifies this
      ensures pending == None && committed == !Clashes(old(accounts), entry)
      ensures accounts == if committed then Write(old(accounts), entry) else old(accounts)
      ensures claims == if committed then old(claims) + {old(pending).value} else old(claims)
    {
      committed := !Clashes(accounts, entry);
      if committed {
        if entry.account.Some? && entry.account.value < |accounts| {
          var a := entry.account.value;
          if entry.Stores() {
            accounts := accounts[a := accounts[a].(customer := entry.event.data.customer)];
          } else if entry.event.kind == Deleted {
            if !Grants(entry.Status()) {
              accounts := accounts[a := accounts[a].(tier := Free)];
            }
          } else if entry.event.kind != CheckoutCompleted && entry.event.kind != Unhandled {
            accounts := accounts[a := accounts[a].(tier := TierFor(entry.Status()))];
          }
        }
        claims := claims + {pending.value};
      }
      pending := None;
    }

    method Webhook(s: Settings, r: Request, answer: Option<string>) returns (outcome: Outcome)
      requires pending == None
      modifies this
      ensures pending == None && Result(accounts, claims, outcome) == Deliver(s, old(accounts), old(claims), r, answer)
      ensures s.production && !s.secret ==> outcome == Refused(500)
      ensures s.secret && !r.signed ==> outcome == Refused(400)
      ensures !Genuine(s, r) || r.body.None? ==> outcome.Refused? && accounts == old(accounts) && claims == old(claims)
    {
      hide Resolve, Write, Clashes;
      if s.production && !s.secret { return Refused(500); }
      if !(if s.secret then r.signed else !s.production) { return Refused(400); }
      if r.body.None? { return Refused(400); }
      var e := r.body.value;
      if e.kind == Unhandled { return Ignored; }

      var account, found: Option<string> := NoRow, None;
      if e.kind.Subscription() {
        account := GetAccount(e.data);
        if account.NoRow? { return Refused(400); }
        if account.SeveralRows? { return Refused(500); }
        if s.production && !s.key { return Refused(500); }
        if e.data.subscription.Some? && s.key {
          if answer.None? { return Refused(400); }
          found := answer;
        }
      }

      var claimed := ClaimEvent(e.id);
      if !claimed { return Ignored; }

      var place: Place;
      if e.kind.Subscription() {
        place := Claimed(account.account, found, 0);
      } else {
        account := GetAccount(e.data);
        if account.SeveralRows? {
          Rollback();
          return Refused(500);
        }
        ResolvedExists(accounts, e.data);
        place := if account.Row? then Matched(Some(account.account), accounts[account.account].customer, 0)
                 else Matched(None, None, 0);
      }
      var committed := Commit(EntryOf(0, e, place, 0));
      outcome := if committed then Applied else Refused(500);
    }
  }

  /** A refused delivery leaves no trace, so a redelivery is a first delivery; an applied event changes nothing again. */
  lemma Redelivered(s: Settings, accounts: seq<Account>, claims: set<string>, r: Request, answer: Option<string>,
                    s': Settings, answer': Option<string>)
    ensures var first := Deliver(s, accounts, claims, r, answer);
      var second := Deliver(s', first.accounts, first.claims, r, answer');
      && (first.outcome.Refused? ==> second == Deliver(s', accounts, claims, r, answer'))
      && (first.outcome.Applied? ==> second.outcome != Applied && second.accounts == first.accounts && second.claims == first.claims)
      && (first.outcome.Applied? <==> first.claims != claims)
  {
    hide Resolve, Write, Clashes;
  }

  // ---------------------------------------------------------------- what a delivery that meets every condition does

  /** A genuine request for an event nobody has claimed. */
  ghost predicate Fresh(s: Settings, claims: set<string>, r: Request) {
    Genuine(s, r) && r.body.Some? && r.body.value.id.Some? && r.body.value.id.value !in claims
  }

  /** The statuses that grant premium access. */
  const GRANTING: set<string> := {"active", "trialing"}

  /**
   * A subscription event with a live status sets the tier of its account: premium for an active or
   * trialing subscription and free for any other, except that a deletion never grants.
   */
  lemma SubscriptionIsApplied(s: Settings, accounts: seq<Account>, claims: set<string>, r: Request, status: string, a: nat)
    requires Fresh(s, claims, r) && s.key && r.body.value.data.subscription.Some?
    requires r.body.value.kind == Created || r.body.value.kind == Updated || r.body.value.kind == Deleted
    requires Resolve(accounts, r.body.value.data) == Row(a)
    ensures a < |accounts|
    ensures var e := r.body.value;
      var tier := if status in GRANTING then (if e.kind == Deleted then accounts[a].tier else Premium) else Free;
      Deliver(s, accounts, claims, r, Some(status)) == Result(accounts[a := accounts[a].(tier := tier)], claims + {e.id.value}, Applied)
  {
    ResolvedExists(accounts, r.body.value.data);
    hide Resolve;
  }

  /** Where there is no key, outside production, the status in the event decides instead. */
  lemma BodyIsApplied(s: Settings, accounts: seq<Account>, claims: set<string>, r: Request, answer: Option<string>, a: nat)
    requires Fresh(s, claims, r) && !s.key && !s.production
    requires r.body.value.kind == Created || r.body.value.kind == Updated || r.body.value.kind == Deleted
    requires Resolve(accounts, r.body.value.data) == Row(a)
    ensures a < |accounts|
    ensures var e := r.body.value;
      var grants := e.data.status.Some? && e.data.status.value in GRANTING;
      var tier := if grants then (if e.kind == Deleted then accounts[a].tier else Premium) else Free;
      Deliver(s, accounts, claims, r, answer) == Result(accounts[a := accounts[a].(tier := tier)], claims + {e.id.value}, Applied)
  {
    ResolvedExists(accounts, r.body.value.data);
    hide Resolve;
  }

  /** A checkout stores its customer id with its account, unless the account has one or another account has this one. */
  lemma CheckoutIsApplied(s: Settings, accounts: seq<Account>, claims: set<string>, r: Request, answer: Option<string>)
    requires Fresh(s, claims, r) && r.body.value.kind == CheckoutCompleted
    requires !Resolve(accounts, r.body.value.data).SeveralRows?
    ensures var e, found := r.body.value, Resolve(accounts, r.body.value.data);
      var result := Deliver(s, accounts, claims, r, answer);
      if found.Row? && found.account < |accounts| && e.data.customer.Some? && accounts[found.account].customer.None? then
        if exists b :: 0 <= b < |accounts| && b != found.account && accounts[b].customer == e.data.customer then
          result == Result(accounts, claims, Refused(500))
        else
          result == Result(accounts[found.account := accounts[found.account].(customer := e.data.customer)],
                           claims + {e.id.value}, Applied)
      else result == Result(accounts, claims + {e.id.value}, Applied)
  {
    ResolvedExists(accounts, r.body.value.data);
    hide Resolve;
  }

  /** The other answers: what is refused, and what is acknowledged without effect. */
  lemma OthersAreAnswered(s: Settings, accounts: seq<Account>, claims: set<string>, r: Request, answer: Option<string>)
    requires Genuine(s, r) && r.body.Some? && r.body.value.kind != Unhandled
    ensures var e, found := r.body.value, Resolve(accounts, r.body.value.data);
      var result := Deliver(s, accounts, claims, r, answer);
      var nothing := Result(accounts, claims, result.outcome) == result;
      && (e.kind != CheckoutCompleted && found.NoRow? ==> nothing && result.outcome == Refused(400))
      && (e.kind != CheckoutCompleted && found.SeveralRows? ==> nothing && result.outcome == Refused(500))
      && (e.kind != CheckoutCompleted && found.Row? && s.production && !s.key ==> nothing && result.outcome == Refused(500))
      && (e.kind != CheckoutCompleted && found.Row? && s.key && e.data.subscription.Some? && answer.None? ==>
          nothing && result.outcome == Refused(400))
      && (e.kind == CheckoutCompleted && (e.id.None? || e.id.value in claims) ==> nothing && result.outcome == Ignored)
      && (e.kind == CheckoutCompleted && e.id.Some? && e.id.value !in claims && found.SeveralRows? ==>
          nothing && result.outcome == Refused(500))
      && (e.kind != CheckoutCompleted && found.Row? && (s.key || !s.production) ==>
          (e.data.subscription.None? || !s.key || answer.Some?) && (e.id.None? || e.id.value in claims) ==>
            nothing && result.outcome == Ignored)
  {
    hide Resolve, Write, Clashes;
  }
}
