/** What the foreign assets pallet promises to those who manage assets: a book with one listing per asset.

    The pallet keeps a map from ids to locations, a map from locations back to ids with the status, the
    deposit details, and a contract with a pause flag per asset. The book keeps one listing per asset and
    the free balances. Over every run both answer every call alike and stay in agreement. */
module ForeignAssetsRegistry {
  import opened Integers
  import opened Xcm
  import opened Utf8
  import opened ForeignAssets
  import opened ForeignAssetsRuns
  import opened ForeignAssetsEffects

  datatype Listing = Listing(location: Location, status: Status, creator: Option<Account>)

  datatype Book = Book(listings: map<AssetId, Listing>, free: map<Account, nat>)

  predicate Listed(b: Book, location: Location) {
    exists id :: id in b.listings && b.listings[id].location == location
  }

  ghost predicate Manages(b: Book, origin: Origin, id: AssetId) {
    id in b.listings && Within(origin, b.listings[id].location)
  }

  ghost predicate Accepts(cfg: Config, b: Book, call: Call)
    requires Managing(call)
  {
    match call
    case Create(origin, id, location, symbol, name) =>
      var payer := Payer(cfg, origin);
      && Within(origin, location) && MayCreate(cfg, origin)
      && id !in b.listings && !Listed(b, location)
      && |b.listings| < cfg.maxForeignAssets && cfg.filter(id)
      && Decode(symbol).Some? && Decode(name).Some? && cfg.deploys(id, symbol, name)
      && (payer.Some? ==> cfg.creationDeposit <= Amount(b.free, payer.value))
    case ChangeLocation(origin, id, location) =>
      Manages(b, origin, id) && Within(origin, location) && !Listed(b, location)
    case Freeze(origin, id, _) => Manages(b, origin, id) && b.listings[id].status == Active
    case Unfreeze(origin, id) => Manages(b, origin, id) && b.listings[id].status != Active
  }

  /** An accepted call writes one listing. */
  ghost function Written(cfg: Config, b: Book, call: Call): Listing
    requires Managing(call) && (call.Create? || call.id in b.listings)
  {
    match call
    case Create(origin, id, location, _, _) => Listing(location, Active, Payer(cfg, origin))
    case ChangeLocation(_, id, location) => b.listings[id].(location := location)
    case Freeze(_, id, allowDeposit) => b.listings[id].(status := FrozenStatus(allowDeposit))
    case Unfreeze(_, id) => b.listings[id].(status := Active)
  }

  /** A creation by a sibling takes the deposit. */
  ghost function Charge(cfg: Config, b: Book, call: Call): map<Account, nat>
    requires Managing(call) && Accepts(cfg, b, call)
  {
    if call.Create? && Payer(cfg, call.origin).Some? then
      var payer := Payer(cfg, call.origin).value;
      b.free[payer := Amount(b.free, payer) - cfg.creationDeposit]
    else b.free
  }

  ghost function Enter(cfg: Config, b: Book, call: Call): Book {
    if call.BalancesChanged? then b.(free := b.free[call.account := call.free])
    else if !Managing(call) || !Accepts(cfg, b, call) then b
    else Book(b.listings[call.id := Written(cfg, b, call)], Charge(cfg, b, call))
  }

  ghost function Kept(cfg: Config, b: Book, calls: seq<Call>): Book
    decreases |calls|
  {
    if calls == [] then b else Kept(cfg, Enter(cfg, b, calls[0]), calls[1..])
  }

  // ---------- Agreement ----------

  function ListingOf(s: State, id: AssetId): Listing
    requires id in s.byId
  {
    Listing(s.byId[id], StatusOf(s, id).GetOr(Active), CreatorOf(s, id))
  }

  ghost predicate Agree(b: Book, s: State) {
    && b.listings.Keys == s.byId.Keys
    && (forall id :: id in s.byId ==> b.listings[id] == ListingOf(s, id))
    && (forall a :: Amount(b.free, a) == Amount(s.free, a))
  }

  /** Which managing calls go through, in order. */
  function Answers(cfg: Config, s: State, calls: seq<Call>): seq<bool>
    decreases |calls|
  {
    if calls == [] then []
    else
      (if Managing(calls[0]) then [Dispatch(cfg, s, calls[0]).1.Ok?] else [])
      + Answers(cfg, Apply(cfg, s, calls[0]), calls[1..])
  }

  ghost function BookAnswers(cfg: Config, b: Book, calls: seq<Call>): seq<bool>
    decreases |calls|
  {
    if calls == [] then []
    else
      (if Managing(calls[0]) then [Accepts(cfg, b, calls[0])] else [])
      + BookAnswers(cfg, Enter(cfg, b, calls[0]), calls[1..])
  }

  lemma ListedIsTaken(cfg: Config, b: Book, s: State, location: Location)
    requires Sound(cfg, s) && Agree(b, s)
    ensures Listed(b, location) <==> Convert(s, location).Some?
  {
    if location in s.byLocation {
      assert b.listings[s.byLocation[location].0].location == location;
    }
  }

  lemma SameSize(b: Book, s: State)
    requires Agree(b, s)
    ensures |b.listings| == |s.byId|
  {
    assert |b.listings| == |b.listings.Keys| && |s.byId| == |s.byId.Keys|;
  }

  lemma SameAnswerToCreation(cfg: Config, b: Book, s: State, call: Call)
    requires Sound(cfg, s) && Agree(b, s) && call.Create?
    ensures Dispatch(cfg, s, call).1.Ok? <==> Accepts(cfg, b, call)
  {
    CreateSucceedsExactly(cfg, s, call.origin, call.id, call.location, call.symbol, call.name);
    ListedIsTaken(cfg, b, s, call.location);
    SameSize(b, s);
  }

  lemma SameAnswer(cfg: Config, b: Book, s: State, call: Call)
    requires Sound(cfg, s) && Agree(b, s) && Managing(call)
    ensures Dispatch(cfg, s, call).1.Ok? <==> Accepts(cfg, b, call)
  {
    match call
    case Create(_, _, _, _, _) => SameAnswerToCreation(cfg, b, s, call);
    case ChangeLocation(origin, id, location) =>
      ManagementSucceedsExactly(cfg, s, origin, id, location, false);
      ListedIsTaken(cfg, b, s, location);
    case Freeze(origin, id, allowDeposit) =>
      ManagementSucceedsExactly(cfg, s, origin, id, Location(0, []), allowDeposit);
    case Unfreeze(origin, id) =>
      ManagementSucceedsExactly(cfg, s, origin, id, Location(0, []), false);
  }

  /** One asset is listed anew, and all others stay. */
  ghost predicate OneWritten(s: State, id: AssetId, listing: Listing, t: State) {
    && (forall k :: ConvertBack(t, k) == if k == id then Some(listing.location) else ConvertBack(s, k))
    && (forall k :: StatusOf(t, k) == if k == id then Some(listing.status) else StatusOf(s, k))
    && (forall k :: CreatorOf(t, k) == if k == id then listing.creator else CreatorOf(s, k))
  }

  lemma CreateWrites(cfg: Config, s: State, call: Call)
    requires Sound(cfg, s) && call.Create? && Dispatch(cfg, s, call).1.Ok?
    ensures OneWritten(s, call.id, Listing(call.location, Active, Payer(cfg, call.origin)), Dispatch(cfg, s, call).0)
  {
    CreateMeans(cfg, s, call.origin, call.id, call.location, call.symbol, call.name);
  }

  lemma ChangeWrites(cfg: Config, s: State, call: Call)
    requires Sound(cfg, s) && call.ChangeLocation? && Dispatch(cfg, s, call).1.Ok?
    ensures call.id in s.byId
    ensures OneWritten(s, call.id, ListingOf(s, call.id).(location := call.location), Dispatch(cfg, s, call).0)
  {
    ChangeMeans(cfg, s, call.origin, call.id, call.location);
    assert StatusOf(s, call.id).Some?;
    SameCreators(s, Dispatch(cfg, s, call).0);
  }

  lemma SameCreators(s: State, t: State)
    requires t.details == s.details
    ensures forall k :: CreatorOf(t, k) == CreatorOf(s, k)
  {
  }

  lemma FreezeWrites(cfg: Config, s: State, call: Call)
    requires Sound(cfg, s) && call.Freeze? && Dispatch(cfg, s, call).1.Ok?
    ensures call.id in s.byId
    ensures OneWritten(s, call.id, ListingOf(s, call.id).(status := FrozenStatus(call.allowDeposit)),
                       Dispatch(cfg, s, call).0)
  {
    FreezeMeans(cfg, s, call.origin, call.id, call.allowDeposit);
    SameCreators(s, Dispatch(cfg, s, call).0);
  }

  lemma UnfreezeWrites(cfg: Config, s: State, call: Call)
    requires Sound(cfg, s) && call.Unfreeze? && Dispatch(cfg, s, call).1.Ok?
    ensures call.id in s.byId
    ensures OneWritten(s, call.id, ListingOf(s, call.id).(status := Active), Dispatch(cfg, s, call).0)
  {
    UnfreezeMeans(cfg, s, call.origin, call.id);
    SameCreators(s, Dispatch(cfg, s, call).0);
  }

  lemma SwitchWrites(cfg: Config, b: Book, s: State, call: Call)
    requires Sound(cfg, s) && Agree(b, s) && (call.Freeze? || call.Unfreeze?) && Dispatch(cfg, s, call).1.Ok?
    ensures call.id in b.listings && OneWritten(s, call.id, Written(cfg, b, call), Dispatch(cfg, s, call).0)
  {
    if call.Freeze? {
      FreezeWrites(cfg, s, call);
    } else {
      UnfreezeWrites(cfg, s, call);
    }
  }

  lemma ManagingWrites(cfg: Config, b: Book, s: State, call: Call)
    requires Sound(cfg, s) && Agree(b, s) && Managing(call) && Dispatch(cfg, s, call).1.Ok?
    ensures call.Create? || call.id in b.listings
    ensures OneWritten(s, call.id, Written(cfg, b, call), Dispatch(cfg, s, call).0)
  {
    if call.Create? {
      CreateWrites(cfg, s, call);
    } else if call.ChangeLocation? {
      ChangeWrites(cfg, s, call);
    } else {
      SwitchWrites(cfg, b, s, call);
    }
  }

  lemma SameCharge(cfg: Config, b: Book, s: State, call: Call, a: Account)
    requires Agree(b, s) && Managing(call) && Accepts(cfg, b, call) && Dispatch(cfg, s, call).1.Ok?
    ensures Amount(Charge(cfg, b, call), a) == Amount(Dispatch(cfg, s, call).0.free, a)
  {
    assert Amount(b.free, a) == Amount(s.free, a);
    BalancesPaid(cfg, s, call, a);
  }

  lemma OneWrittenAgrees(b: Book, s: State, id: AssetId, listing: Listing, free: map<Account, nat>, t: State)
    requires Agree(b, s) && OneWritten(s, id, listing, t)
    requires forall a :: Amount(free, a) == Amount(t.free, a)
    ensures Agree(Book(b.listings[id := listing], free), t)
  {
    var after := b.listings[id := listing];
    forall k ensures k in t.byId <==> k in after {
      assert ConvertBack(t, k) == if k == id then Some(listing.location) else ConvertBack(s, k);
    }
    assert after.Keys == t.byId.Keys;
    forall k | k in t.byId ensures after[k] == ListingOf(t, k) {
      assert ConvertBack(t, k) == if k == id then Some(listing.location) else ConvertBack(s, k);
      assert StatusOf(t, k) == if k == id then Some(listing.status) else StatusOf(s, k);
      assert CreatorOf(t, k) == if k == id then listing.creator else CreatorOf(s, k);
    }
  }

  lemma AcceptedAgrees(cfg: Config, b: Book, s: State, call: Call)
    requires Sound(cfg, s) && Agree(b, s) && Managing(call)
    requires Accepts(cfg, b, call) && Dispatch(cfg, s, call).1.Ok?
    ensures Agree(Book(b.listings[call.id := Written(cfg, b, call)], Charge(cfg, b, call)), Dispatch(cfg, s, call).0)
  {
    var t := Dispatch(cfg, s, call).0;
    ManagingWrites(cfg, b, s, call);
    forall a ensures Amount(Charge(cfg, b, call), a) == Amount(t.free, a) {
      SameCharge(cfg, b, s, call, a);
    }
    OneWrittenAgrees(b, s, call.id, Written(cfg, b, call), Charge(cfg, b, call), t);
  }

  lemma ManagingAgrees(cfg: Config, b: Book, s: State, call: Call)
    requires Sound(cfg, s) && Agree(b, s) && Managing(call)
    ensures Agree(Enter(cfg, b, call), Dispatch(cfg, s, call).0)
  {
    SameAnswer(cfg, b, s, call);
    if Accepts(cfg, b, call) {
      AcceptedAgrees(cfg, b, s, call);
    } else {
      RefusalChangesNothing(cfg, s, call);
    }
  }

  lemma SameListings(b: Book, s: State, free: map<Account, nat>, t: State)
    requires Agree(b, s) && t.byId == s.byId && t.byLocation == s.byLocation && t.details == s.details
    requires forall a :: Amount(free, a) == Amount(t.free, a)
    ensures Agree(b.(free := free), t)
  {
    forall id | id in s.byId ensures ListingOf(t, id) == ListingOf(s, id) {}
  }

  lemma SameAmounts(m: map<Account, nat>, n: map<Account, nat>, a: Account, v: nat, m': map<Account, nat>,
                    n': map<Account, nat>)
    requires forall x :: Amount(m, x) == Amount(n, x)
    requires m' == m[a := v] && n' == n[a := v]
    ensures forall x :: Amount(m', x) == Amount(n', x)
  {
    forall x ensures Amount(m', x) == Amount(n', x) {
      assert Amount(m, x) == Amount(n, x);
    }
  }

  lemma OthersAgree(cfg: Config, b: Book, s: State, call: Call)
    requires Agree(b, s) && !Managing(call)
    ensures Agree(Enter(cfg, b, call), Apply(cfg, s, call))
  {
    if call.BalancesChanged? {
      SameAmounts(b.free, s.free, call.account, call.free, b.free[call.account := call.free],
                  Apply(cfg, s, call).free);
      SameListings(b, s, b.free[call.account := call.free], Apply(cfg, s, call));
    } else {
      TokenCallsMoveBalances(cfg, s, call);
      SameListings(b, s, b.free, Apply(cfg, s, call));
    }
  }

  lemma StepAgrees(cfg: Config, b: Book, s: State, call: Call)
    requires Sound(cfg, s) && Agree(b, s)
    ensures Agree(Enter(cfg, b, call), Apply(cfg, s, call))
  {
    if Managing(call) {
      ManagingAgrees(cfg, b, s, call);
    } else {
      OthersAgree(cfg, b, s, call);
    }
  }

  /** Over every run the pallet answers as the book does, refused calls included, and ends in agreement with it:
      the two maps, the deposit details and the pause flags are one book of listings. */
  lemma {:induction false} RunKeepsBook(cfg: Config, b: Book, s: State, calls: seq<Call>)
    requires Sound(cfg, s) && Agree(b, s)
    ensures Answers(cfg, s, calls) == BookAnswers(cfg, b, calls)
    ensures Agree(Kept(cfg, b, calls), Run(cfg, s, calls))
    decreases |calls|
  {
    if calls != [] {
      var call := calls[0];
      if Managing(call) {
        SameAnswer(cfg, b, s, call);
      }
      StepAgrees(cfg, b, s, call);
      StepKeepsSound(cfg, s, call);
      RunKeepsBook(cfg, Enter(cfg, b, call), Apply(cfg, s, call), calls[1..]);
    }
  }

  /** From the start: what anybody can look up about an asset is what the book says. */
  lemma LookupsFollowBook(cfg: Config, calls: seq<Call>, id: AssetId, location: Location)
    ensures var s, b := Run(cfg, EMPTY, calls), Kept(cfg, Book(map[], map[]), calls);
            && Answers(cfg, EMPTY, calls) == BookAnswers(cfg, Book(map[], map[]), calls)
            && (ConvertBack(s, id) == if id in b.listings then Some(b.listings[id].location) else None)
            && (StatusOf(s, id) == if id in b.listings then Some(b.listings[id].status) else None)
            && (CreatorOf(s, id) == if id in b.listings then b.listings[id].creator else None)
            && (Convert(s, location) == Some(id) <==> id in b.listings && b.listings[id].location == location)
  {
    var b := Book(map[], map[]);
    EmptyIsSound(cfg);
    RunKeepsSound(cfg, EMPTY, calls);
    RunKeepsBook(cfg, b, EMPTY, calls);
    var s := Run(cfg, EMPTY, calls);
    AgreementShows(cfg, Kept(cfg, b, calls), s, id, location);
  }

  lemma AgreementShows(cfg: Config, b: Book, s: State, id: AssetId, location: Location)
    requires Sound(cfg, s) && Agree(b, s)
    ensures ConvertBack(s, id) == if id in b.listings then Some(b.listings[id].location) else None
    ensures StatusOf(s, id) == if id in b.listings then Some(b.listings[id].status) else None
    ensures CreatorOf(s, id) == if id in b.listings then b.listings[id].creator else None
    ensures Convert(s, location) == Some(id) <==> id in b.listings && b.listings[id].location == location
  {
    if id in s.byId {
      assert b.listings[id] == ListingOf(s, id) && StatusOf(s, id).Some?;
    }
  }
}
