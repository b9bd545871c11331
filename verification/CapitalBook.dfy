/** Reconciling the open-position reads with the wallet's frozen buckets (capitalSizing.ts, deriveCapitalBook). */
module CapitalBook {
  import opened Common
  import opened CapitalSizing

  /** One listed position. `status` is None when it is not text; amount and mark are None when they are not numbers. */
  datatype Row = Row(status: Option<string>, walletId: Option<int>, amount: Option<real>, mark: Option<real>)

  datatype Listing = NotRead | Malformed | Rows(rows: seq<Row>)

  datatype Buckets = Buckets(available: Option<real>, frozen: Option<real>, frozenPm: Option<real>,
      frozenFutures: Option<real>)

  datatype Snapshot = Snapshot(apiKeyScope: bool, portfolioWallet: Option<int>, walletId: Option<int>, knownBasis: bool,
                               totalUsd: Option<real>, spotComplete: bool, wallet: Buckets, portfolio: Buckets,
                               futures: Listing, pm: Listing)

  datatype Totals = Totals(held: real, negativeMarks: real)

  // ----- positions -----

  predicate WalletKnown(r: Row) {
    r.walletId.Some? && 0 < r.walletId.value <= MAX_SAFE_INTEGER
  }

  /** What one row does to the totals. */
  function Take(r: Row, wallet: int, t: Totals): Result<Totals, Reason> {
    if r.status.None? then Err(StatusUnavailable)
    else if r.status.value != "open" then Ok(t)
    else if !WalletKnown(r) then Err(HeldWalletUnavailable)
    else if r.walletId.value != wallet then Ok(t)
    else if !Nonnegative(r.amount) || r.mark.None? then Err(HeldMarkUnavailable)
    else Ok(Totals(t.held + r.amount.value, t.negativeMarks + MinR(0.0, r.mark.value)))
  }

  function Scan(rows: seq<Row>, wallet: int, t: Totals): Result<Totals, Reason> {
    if rows == [] then Ok(t)
    else
      match Take(rows[0], wallet, t)
      case Err(reason) => Err(reason)
      case Ok(u) => Scan(rows[1..], wallet, u)
  }

  method ScanRows(rows: seq<Row>, wallet: int, negativeMarks: real) returns (r: Result<Totals, Reason>)
    ensures r == Scan(rows, wallet, Totals(0.0, negativeMarks))
  {
    var t := Totals(0.0, negativeMarks);
    var i := 0;
    while i < |rows|
      invariant 0 <= i <= |rows|
      invariant Scan(rows[i..], wallet, t) == Scan(rows, wallet, Totals(0.0, negativeMarks))
    {
      var next := Take(rows[i], wallet, t);
      if next.Err? {
        return Err(next.error);
      }
      t := next.value;
      i := i + 1;
    }
    return Ok(t);
  }

  /** A listing against its bucket: the collateral of the book's own open rows must add up to it. */
  function Reconcile(l: Listing, isPm: bool, bucket: real, wallet: int, negativeMarks: real): Result<real, Reason> {
    match l
    case NotRead => if isPm && bucket == 0.0 then Ok(negativeMarks) else Err(CoverageUnavailable)
    case Malformed => Err(CoverageUnavailable)
    case Rows(rows) =>
      match Scan(rows, wallet, Totals(0.0, negativeMarks))
      case Err(reason) => Err(reason)
      case Ok(t) => if Abs(t.held - bucket) > CENT_TOLERANCE then Err(CoverageMismatch) else Ok(t.negativeMarks)
  }

  // ----- cash -----

  predicate BucketAgrees(w: Option<real>, p: Option<real>, least: real) {
    w.Some? && p.Some? && w.value >= least && p.value >= least && Abs(w.value - p.value) <= CENT_TOLERANCE
  }

  predicate CashAgrees(s: Snapshot) {
    && BucketAgrees(s.wallet.available, s.portfolio.available, 0.0)
    && BucketAgrees(s.wallet.frozen, s.portfolio.frozen, -FROZEN_RESIDUE_TOLERANCE)
    && BucketAgrees(s.wallet.frozenPm, s.portfolio.frozenPm, -FROZEN_RESIDUE_TOLERANCE)
    && BucketAgrees(s.wallet.frozenFutures, s.portfolio.frozenFutures, -FROZEN_RESIDUE_TOLERANCE)
  }

  function Cash(x: Option<real>): real {
    if x.Some? then MaxR(0.0, x.value) else 0.0
  }

  function CashTotal(b: Buckets): real {
    Cash(b.available) + Cash(b.frozen) + Cash(b.frozenPm) + Cash(b.frozenFutures)
  }

  function Derive(s: Snapshot): Book {
    if !s.apiKeyScope then Unavailable(BookScope)
    else if s.portfolioWallet.None? || !(0 < s.portfolioWallet.value <= MAX_SAFE_INTEGER)
        || s.portfolioWallet != s.walletId
    then Unavailable(WalletIdentity)
    else if !s.knownBasis || !Positive(s.totalUsd) then Unavailable(ValuationUnavailable)
    else if !s.spotComplete then Unavailable(SpotUnproven)
    else if !CashAgrees(s) then Unavailable(PartitionsIncomplete)
    else if s.totalUsd.value + CENT_TOLERANCE < CashTotal(s.wallet) then Unavailable(ValueIncoherent)
    else
      var id := s.portfolioWallet.value;
      match Reconcile(s.futures, false, Cash(s.wallet.frozenFutures), id, 0.0)
      case Err(reason) => Unavailable(reason)
      case Ok(futuresMarks) =>
        match Reconcile(s.pm, true, Cash(s.wallet.frozenPm), id, futuresMarks)
        case Err(reason) => Unavailable(reason)
        case Ok(marks) =>
          var equity := s.totalUsd.value + marks;
          if equity <= 0.0 then Unavailable(EquityNotPositive)
          else Ready(id, equity, MinR(Cash(s.wallet.available), s.portfolio.available.value),
                     MaxR(0.0, s.totalUsd.value - Cash(s.wallet.available)))
  }

  // ----- what a reconciled book means -----

  /** A row that the book answers for. */
  predicate Own(r: Row, wallet: int) {
    r.status == Some("open") && r.walletId == Some(wallet)
  }

  function OwnRows(rows: seq<Row>, wallet: int): seq<Row> {
    if rows == [] then []
    else (if Own(rows[0], wallet) then [rows[0]] else []) + OwnRows(rows[1..], wallet)
  }

  function Collateral(rows: seq<Row>): real {
    if rows == [] then 0.0 else (if rows[0].amount.Some? then rows[0].amount.value else 0.0) + Collateral(rows[1..])
  }

  function Losses(rows: seq<Row>): real {
    if rows == [] then 0.0 else (if rows[0].mark.Some? then MinR(0.0, rows[0].mark.value) else 0.0) + Losses(rows[1..])
  }

  /** Every status is known, every open row names its wallet, and every own row has an amount and a mark. */
  predicate Readable(rows: seq<Row>, wallet: int) {
    forall i :: 0 <= i < |rows| ==>
      && rows[i].status.Some?
      && (rows[i].status == Some("open") ==> WalletKnown(rows[i]))
      && (Own(rows[i], wallet) && WalletKnown(rows[i]) ==> Nonnegative(rows[i].amount) && rows[i].mark.Some?)
  }

  /** The scan succeeds exactly on readable rows, and then totals the own rows and nothing else: closed history and
      other wallets' positions contribute nothing. */
  lemma {:induction false} ScanTotalsOwnRows(rows: seq<Row>, wallet: int, t: Totals)
    ensures Scan(rows, wallet, t).Ok? <==> Readable(rows, wallet)
    ensures Scan(rows, wallet, t).Ok? ==>
              Scan(rows, wallet, t).value ==
              Totals(t.held + Collateral(OwnRows(rows, wallet)), t.negativeMarks + Losses(OwnRows(rows, wallet)))
  {
    if rows != [] {
      var r := Take(rows[0], wallet, t);
      var own := OwnRows(rows[1..], wallet);
      if r.Ok? { ScanTotalsOwnRows(rows[1..], wallet, r.value); }
      assert Own(rows[0], wallet) ==> ([rows[0]] + own)[1..] == own;
      assert [] + own == own;
      ReadableSplit(rows, wallet);
    }
  }

  lemma {:induction false} ReadableSplit(rows: seq<Row>, wallet: int)
    requires rows != []
    ensures Readable(rows, wallet) <==> Readable([rows[0]], wallet) && Readable(rows[1..], wallet)
  {
    if Readable([rows[0]], wallet) && Readable(rows[1..], wallet) {
      assert [rows[0]][0] == rows[0];
      assert forall i :: 1 <= i < |rows| ==> rows[i] == rows[1..][i - 1];
    }
    if Readable(rows, wallet) {
      assert forall i :: 0 <= i < |rows| - 1 ==> rows[1..][i] == rows[i + 1];
    }
  }

  lemma {:induction false} LossesNotPositive(rows: seq<Row>)
    ensures Losses(rows) <= 0.0
  {
    if rows != [] { LossesNotPositive(rows[1..]); }
  }

  function Listed(l: Listing): seq<Row> {
    if l.Rows? then l.rows else []
  }

  lemma {:induction false} ReconciledMeans(l: Listing, isPm: bool, bucket: real, wallet: int, marks: real)
    requires Reconcile(l, isPm, bucket, wallet, marks).Ok?
    ensures Readable(Listed(l), wallet)
    ensures Abs(Collateral(OwnRows(Listed(l), wallet)) - bucket) <= CENT_TOLERANCE
    ensures Reconcile(l, isPm, bucket, wallet, marks).value == marks + Losses(OwnRows(Listed(l), wallet))
  {
    if l.Rows? {
      ScanTotalsOwnRows(l.rows, wallet, Totals(0.0, marks));
    }
  }

  /** In a ready book every own open position is accounted for: the collateral of each venue reconciles with its
      bucket to the cent, equity is the total lowered by the own positions' losses and by nothing else, and what is
      committed and what is spendable never exceed the total by more than the cent. */
  lemma {:induction false} ReadyBookAddsUp(s: Snapshot)
    requires Derive(s).Ready?
    ensures s.portfolioWallet == s.walletId == Some(Derive(s).walletId) && s.totalUsd.Some?
    ensures var b, id := Derive(s), Derive(s).walletId;
            && Readable(Listed(s.futures), id) && Readable(Listed(s.pm), id)
            && Abs(Collateral(OwnRows(Listed(s.futures), id)) - Cash(s.wallet.frozenFutures)) <= CENT_TOLERANCE
            && Abs(Collateral(OwnRows(Listed(s.pm), id)) - Cash(s.wallet.frozenPm)) <= CENT_TOLERANCE
            && b.equity == s.totalUsd.value + Losses(OwnRows(Listed(s.futures), id)) + Losses(OwnRows(Listed(s.pm), id))
            && 0.0 < b.equity <= s.totalUsd.value
            && b.cashAvailable >= 0.0 && b.committed >= 0.0
            && b.cashAvailable + b.committed <= s.totalUsd.value + CENT_TOLERANCE
  {
    var id := s.portfolioWallet.value;
    var futures := Reconcile(s.futures, false, Cash(s.wallet.frozenFutures), id, 0.0);
    ReconciledMeans(s.futures, false, Cash(s.wallet.frozenFutures), id, 0.0);
    ReconciledMeans(s.pm, true, Cash(s.wallet.frozenPm), id, futures.value);
    LossesNotPositive(OwnRows(Listed(s.futures), id));
    LossesNotPositive(OwnRows(Listed(s.pm), id));
  }

  /** Rows of other wallets and closed rows, as long as they are readable, change nothing. */
  lemma {:induction false} OtherRowsIrrelevant(rows: seq<Row>, more: seq<Row>, wallet: int, t: Totals)
    requires Readable(more, wallet) && OwnRows(more, wallet) == []
    ensures Scan(rows + more, wallet, t) == Scan(rows, wallet, t)
    decreases |rows|
  {
    if rows == [] {
      assert rows + more == more;
      ScanTotalsOwnRows(more, wallet, t);
    } else {
      assert (rows + more)[1..] == rows[1..] + more;
      var r := Take(rows[0], wallet, t);
      if r.Ok? { OtherRowsIrrelevant(rows[1..], more, wallet, r.value); }
    }
  }
}
