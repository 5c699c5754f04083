/**
 * Which accounts a user may see: the installations GitHub lists are turned into account links,
 * and the resulting list is cached per user.
 *
 * This is one call that nothing gets in between of. GitHub's answers and the known accounts are
 * parameters.
 */
module AccessSync {
  import opened OrderedDict

  const PER_PAGE: nat := 100
  const MAX_PAGES: nat := 10
  const TTL: real := 300.0

  datatype User = User(id: int)
  datatype AccountId = AccountId(id: int)

  /** The answer to one page: an error status, or installations of which some may lack an id. */
  datatype Page = Failed | Batch(installations: seq<Option<int>>) {
    predicate Full() { Batch? && |installations| >= PER_PAGE }

    function Ids(): set<int> {
      if Failed? then {} else set i | i in installations && i.Some? :: i.value
    }
  }

  datatype Listing = Listing(ids: set<int>, complete: bool)

  /** How many pages in a row are full. */
  function FullPages(pages: seq<Page>): (n: nat)
    ensures n <= |pages|
    ensures n < |pages| ==> !pages[n].Full()
    ensures forall p :: 0 <= p < n ==> pages[p].Full()
  {
    if pages == [] || !pages[0].Full() then 0 else 1 + FullPages(pages[1..])
  }

  function IdsOf(pages: seq<Page>): set<int> {
    set p, id | p in pages && id in p.Ids() :: id
  }

  function Elements(list: seq<int>): set<int> {
    set id | id in list
  }

  lemma IdsOfMore(pages: seq<Page>, page: Page)
    ensures IdsOf(pages + [page]) == IdsOf(pages) + page.Ids()
  {
    forall id ensures id in IdsOf(pages + [page]) <==> id in IdsOf(pages) + page.Ids() {
      if id in IdsOf(pages) {
        var p :| p in pages && id in p.Ids();
        assert p in pages + [page];
      } else if id in page.Ids() {
        assert page in pages + [page];
      }
    }
  }

  /** The pages up to the first that is not full; complete if that one is an answer and there is one. */
  function Fetched(pages: seq<Page>): Listing {
    var n := FullPages(pages);
    if n == |pages| || pages[n].Failed? then Listing(IdsOf(pages[..n]), false)
    else Listing(IdsOf(pages[..n + 1]), true)
  }

  method FetchInstallationIds(pages: seq<Page>) returns (ids: set<int>, complete: bool)
    requires |pages| == MAX_PAGES
    ensures Listing(ids, complete) == Fetched(pages)
  {
    ids := {};
    var page := 0;
    while page < MAX_PAGES
      invariant 0 <= page <= MAX_PAGES
      invariant forall p :: 0 <= p < page ==> pages[p].Full()
      invariant ids == IdsOf(pages[..page])
    {
      assert page == FullPages(pages) || pages[page].Full();
      if pages[page].Failed? {
        return ids, false;
      }
      assert pages[..page + 1] == pages[..page] + [pages[page]];
      IdsOfMore(pages[..page], pages[page]);
      ids := ids + pages[page].Ids();
      if |pages[page].installations| < PER_PAGE {
        return ids, true;
      }
      page := page + 1;
    }
    return ids, false;
  }

  /** GitHub answers every page it does not fail from the same list. */
  ghost predicate Stable(list: seq<int>, pages: seq<Page>) {
    forall p :: 0 <= p < |pages| && pages[p].Batch? ==>
      && |pages[p].installations| == |PageOf(list, p)|
      && forall i :: 0 <= i < |PageOf(list, p)| ==> pages[p].installations[i] == Some(PageOf(list, p)[i])
  }

  function PageOf(list: seq<int>, p: nat): seq<int> {
    if p * PER_PAGE >= |list| then []
    else if (p + 1) * PER_PAGE >= |list| then list[p * PER_PAGE..]
    else list[p * PER_PAGE..(p + 1) * PER_PAGE]
  }

  lemma PageIds(list: seq<int>, pages: seq<Page>, p: nat)
    requires Stable(list, pages) && p < |pages| && pages[p].Batch?
    ensures pages[p].Ids() == Elements(PageOf(list, p))
  {
    var installations := pages[p].installations;
    forall id ensures id in pages[p].Ids() <==> id in PageOf(list, p) {
      if id in PageOf(list, p) {
        var i :| 0 <= i < |PageOf(list, p)| && PageOf(list, p)[i] == id;
        assert installations[i] == Some(id);
      }
    }
  }

  lemma {:induction false} FirstPages(list: seq<int>, pages: seq<Page>, n: nat)
    requires Stable(list, pages) && n <= |pages| && forall p :: 0 <= p < n ==> pages[p].Batch?
    ensures IdsOf(pages[..n]) == Elements(list[..if n * PER_PAGE < |list| then n * PER_PAGE else |list|])
  {
    if n > 0 {
      hide Stable;
      FirstPages(list, pages, n - 1);
      PageIds(list, pages, n - 1);
      assert pages[..n] == pages[..n - 1] + [pages[n - 1]];
      IdsOfMore(pages[..n - 1], pages[n - 1]);
      PageFollows(list, n - 1);
      hide PageOf, IdsOf;
    }
  }

  lemma PageFollows(list: seq<int>, p: nat)
    ensures var from := if p * PER_PAGE < |list| then p * PER_PAGE else |list|;
      var to := if (p + 1) * PER_PAGE < |list| then (p + 1) * PER_PAGE else |list|;
      Elements(list[..to]) == Elements(list[..from]) + Elements(PageOf(list, p))
  {
    var from := if p * PER_PAGE < |list| then p * PER_PAGE else |list|;
    var to := if (p + 1) * PER_PAGE < |list| then (p + 1) * PER_PAGE else |list|;
    assert list[..to] == list[..from] + PageOf(list, p);
  }

  /**
   * The ids collected are all in the user's list, and are the whole list when they are said to be
   * complete, which is so exactly when the list has fewer than a thousand entries and none of its
   * pages failed.
   */
  lemma CompleteIsWhole(list: seq<int>, pages: seq<Page>)
    requires |pages| == MAX_PAGES && Stable(list, pages)
    ensures var fetched := Fetched(pages);
      && (forall id :: id in fetched.ids ==> id in list)
      && (fetched.complete ==> forall id :: id in list ==> id in fetched.ids)
      && (fetched.complete <==> |list| < 1000 && forall p :: 0 <= p <= |list| / 100 ==> !pages[p].Failed?)
  {
    var n := FullPages(pages);
    FirstPages(list, pages, n);
    FullIsFull(list, pages, n);
    if n < |pages| && pages[n].Batch? {
      FirstPages(list, pages, n + 1);
      assert |PageOf(list, n)| < PER_PAGE;
      assert list[..|list|] == list;
    }
  }

  /** Pages before the last one are full, and no others. */
  lemma {:induction false} FullIsFull(list: seq<int>, pages: seq<Page>, n: nat)
    requires Stable(list, pages) && n <= |pages| && forall p :: 0 <= p < n ==> pages[p].Full()
    ensures n * PER_PAGE <= |list|
  {
    if n > 0 { assert |PageOf(list, n - 1)| >= PER_PAGE; }
  }

  // ---------------------------------------------------------------- links

  type Links = map<AccountId, bool>

  function Authorized(links: Links): set<AccountId> {
    set a | a in links && links[a]
  }

  function Known(accounts: map<AccountId, int>, ids: set<int>): set<AccountId> {
    set a | a in accounts && accounts[a] in ids
  }

  function Granted(links: Links, listed: set<AccountId>): Links {
    map a | a in links.Keys + listed :: a in listed || links[a]
  }

  /** The links among `checked` to accounts that are not listed are revoked. */
  function Revoked(links: Links, checked: set<AccountId>, listed: set<AccountId>): Links {
    map a | a in links :: links[a] && (a in checked ==> a in listed)
  }

  /** Links after granting what is listed and, if the list is complete, revoking the earlier ones that are not. */
  function Synced(links: Links, accounts: map<AccountId, int>, listing: Listing): Links {
    var granted := Granted(links, Known(accounts, listing.ids));
    if listing.complete then Revoked(granted, links.Keys * accounts.Keys, Known(accounts, listing.ids)) else granted
  }

  /** The user may see this account. */
  ghost predicate Allowed(links: Links, a: AccountId) {
    a in links && links[a]
  }

  lemma AuthorizedIs(links: Links)
    ensures forall a :: a in Authorized(links) <==> Allowed(links, a)
  {
  }

  /** The account is known, and its installation is among these. */
  ghost predicate Listed(accounts: map<AccountId, int>, ids: set<int>, a: AccountId) {
    a in accounts && accounts[a] in ids
  }

  /** After a sync a user may see an account if it is listed, or if the list is incomplete and they might before. */
  lemma SyncedIff(links: Links, accounts: map<AccountId, int>, listing: Listing, a: AccountId)
    requires links.Keys <= accounts.Keys
    ensures Allowed(Synced(links, accounts, listing), a) <==>
      Listed(accounts, listing.ids, a) || (!listing.complete && Allowed(links, a))
  {
  }

  /**
   * After a complete read the user may see exactly the known accounts whose installations are in
   * their list; otherwise those they might see before, and listed ones that were read.
   */
  lemma SyncIsExact(links: Links, accounts: map<AccountId, int>, list: seq<int>, pages: seq<Page>)
    requires links.Keys <= accounts.Keys && |pages| == MAX_PAGES && Stable(list, pages)
    ensures var fetched := Fetched(pages);
      forall a :: Allowed(Synced(links, accounts, fetched), a) <==>
        Listed(accounts, fetched.ids, a) || (!fetched.complete && Allowed(links, a))
    ensures Fetched(pages).complete ==>
      forall a :: Allowed(Synced(links, accounts, Fetched(pages)), a) <==> a in accounts && accounts[a] in list
    ensures forall a :: Listed(accounts, Fetched(pages).ids, a) ==> a in accounts && accounts[a] in list
  {
    var fetched := Fetched(pages);
    CompleteIsWhole(list, pages);
    hide Synced, Fetched, Allowed;
    forall a
      ensures Allowed(Synced(links, accounts, fetched), a) <==>
        Listed(accounts, fetched.ids, a) || (!fetched.complete && Allowed(links, a))
    {
      SyncedIff(links, accounts, fetched, a);
    }
    if fetched.complete {
      forall a ensures Listed(accounts, fetched.ids, a) <==> a in accounts && accounts[a] in list {
        if a in accounts {
          var id := accounts[a];
          assert id in list <==> id in fetched.ids;
        }
      }
    }
  }

  method Grant(links: Links, listed: set<AccountId>) returns (mine: Links)
    ensures mine == Granted(links, listed)
  {
    mine := links;
    var todo := listed;
    while todo != {}
      invariant todo <= listed && mine.Keys == links.Keys + (listed - todo)
      invariant forall a :: a in mine ==> (mine[a] <==> a in listed - todo || (a in links && links[a]))
    {
      var a :| a in todo;
      mine := mine[a := true];
      todo := todo - {a};
    }
  }

  method Revoke(links: Links, earlier: set<AccountId>, listed: set<AccountId>) returns (mine: Links)
    requires earlier <= links.Keys
    ensures mine == Revoked(links, earlier, listed)
  {
    mine := links;
    var todo := earlier;
    while todo != {}
      invariant todo <= earlier && mine == Revoked(links, earlier - todo, listed)
    {
      var a :| a in todo;
      if mine[a] && a !in listed {
        mine := mine[a := false];
      }
      todo := todo - {a};
    }
    assert earlier - todo == earlier;
  }

  datatype Cached = Cached(at: real, accounts: set<AccountId>)

  /** What is stored about all users. */
  datatype Store = Store(links: map<User, Links>, cache: map<User, Cached>) {
    function LinksOf(user: User): Links {
      if user in links then links[user] else map[]
    }
  }

  function Pruned(cache: map<User, Cached>, now: real): map<User, Cached> {
    map user | user in cache && !(now - cache[user].at > TTL * 2.0) :: cache[user]
  }

  /**
   * A request. `pages` are GitHub's answers, absent when the user has no token or reading them
   * raises.
   */
  datatype Request = Request(user: User, now: real, force: bool, accounts: map<AccountId, int>, pages: Option<seq<Page>>)

  predicate Hits(cache: map<User, Cached>, r: Request) {
    !r.force && r.user in cache && r.now - cache[r.user].at < TTL
  }

  function NewLinks(store: Store, r: Request): Links {
    if r.pages.Some? then Synced(store.LinksOf(r.user), r.accounts, Fetched(r.pages.value)) else store.LinksOf(r.user)
  }

  function Served(store: Store, r: Request): Store {
    var cache := Pruned(store.cache, r.now);
    if Hits(cache, r) then store.(cache := cache)
    else
      var links := NewLinks(store, r);
      Store(store.links[r.user := links], cache[r.user := Cached(r.now, Authorized(links))])
  }

  function Answer(store: Store, r: Request): set<AccountId> {
    if Hits(store.cache, r) then store.cache[r.user].accounts else Authorized(NewLinks(store, r))
  }

  class AccessStore {
    var links: map<User, Links>
    var cache: map<User, Cached>

    ghost function State(): Store
      reads this
    {
      Store(links, cache)
    }

    constructor ()
      ensures State() == Store(map[], map[])
    {
      links, cache := map[], map[];
    }

    method PruneExpired(now: real)
      modifies this`cache
      ensures cache == Pruned(old(cache), now)
    {
      var expired := set user | user in cache && now - cache[user].at > TTL * 2.0;
      ghost var all := expired;
      while expired != {}
        invariant expired <= all && cache == old(cache) - (all - expired)
      {
        var user :| user in expired;
        cache := cache - {user};
        expired := expired - {user};
      }
      assert cache == old(cache) - all;
    }

    method Sync(user: User, accounts: map<AccountId, int>, ids: set<int>, complete: bool)
      requires user in links
      modifies this`links
      ensures links == old(links)[user := Synced(old(links)[user], accounts, Listing(ids, complete))]
    {
      var earlier := links[user].Keys * accounts.Keys;
      var listed := Known(accounts, ids);
      var mine := Grant(links[user], listed);
      if complete {
        mine := Revoke(mine, earlier, listed);
      }
      links := links[user := mine];
    }

    method GetAuthorizedAccounts(r: Request) returns (accounts: set<AccountId>)
      requires r.pages.Some? ==> |r.pages.value| == MAX_PAGES
      modifies this
      ensures State() == Served(old(State()), r) && accounts == Answer(old(State()), r)
    {
      hide Synced, Fetched;
      PruneExpired(r.now);
      if !r.force && r.user in cache && r.now - cache[r.user].at < TTL {
        return cache[r.user].accounts;
      }
      if r.user !in links {
        links := links[r.user := map[]];
      }
      if r.pages.Some? {
        var ids, complete := FetchInstallationIds(r.pages.value);
        Sync(r.user, r.accounts, ids, complete);
      }
      accounts := set a | a in links[r.user] && links[r.user][a];
      cache := cache[r.user := Cached(r.now, accounts)];
    }
  }

  // ---------------------------------------------------------------- the cache

  /** A call is answered from the cache if and only if it is not forced and the entry is less than five minutes old. */
  lemma CachedIff(store: Store, r: Request)
    ensures Hits(store.cache, r) <==> !r.force && r.user in store.cache && r.now - store.cache[r.user].at < 300.0
    ensures Hits(store.cache, r) ==>
      Answer(store, r) == store.cache[r.user].accounts && Served(store, r).links == store.links
    ensures !Hits(store.cache, r) ==>
      && (forall a :: a in Answer(store, r) <==> Allowed(Served(store, r).LinksOf(r.user), a))
      && r.user in Served(store, r).cache && Served(store, r).cache[r.user] == Cached(r.now, Answer(store, r))
  {
    hide NewLinks;
  }

  /** A call drops the entries older than ten minutes, and keeps all others but the caller's. */
  lemma DropsExpired(store: Store, r: Request, user: User)
    ensures user != r.user ==>
      (user in Served(store, r).cache <==> user in store.cache && r.now - store.cache[user].at <= 600.0)
    ensures user != r.user && user in Served(store, r).cache ==> Served(store, r).cache[user] == store.cache[user]
    ensures user != r.user ==> Served(store, r).LinksOf(user) == store.LinksOf(user)
  {
    hide NewLinks;
  }

  /** Without GitHub's answer the links stay as they are, and with it they are synced. */
  lemma SyncsWhenAnswered(store: Store, r: Request)
    requires !Hits(store.cache, r)
    ensures Served(store, r).LinksOf(r.user) ==
      match r.pages case None => store.LinksOf(r.user) case Some(pages) => Synced(store.LinksOf(r.user), r.accounts, Fetched(pages))
  {
    hide Synced, Fetched;
  }
}
