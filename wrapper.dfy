/** The account registry: the terminal's output folder and, per account id,
    the account's name, its input folder and the lock that serialises writes
    to that folder; and the names of the files the adaptor reads and writes.
    Which folders exist is given as a set of paths. */
module Wrapper {
  import opened Values
  import opened Text

  /** A per-account lock. Threads are not modelled: acquiring a lock that is
      held would block forever, so callers must find it free. */
  class AccountLock {
    var held: bool
    var acquisitions: nat

    constructor()
      ensures !held && acquisitions == 0
    {
      held := false;
      acquisitions := 0;
    }

    method Acquire()
      requires !held
      modifies this
      ensures held && acquisitions == old(acquisitions) + 1
    {
      held := true;
      acquisitions := acquisitions + 1;
    }

    method Release()
      requires held
      modifies this
      ensures !held && acquisitions == old(acquisitions)
    {
      held := false;
    }
  }

  /** The registry's value for an account: `[name, input, lock]`. */
  datatype AccountEntry = AccountEntry(name: string, input: string, lock: AccountLock?)

  /** One account of the configuration. */
  datatype AccountConfig = AccountConfig(name: string, acctId: string, acctInput: string)

  /** `path.join(dir, name)`; normalisation of the result is not modelled. */
  function PathJoin(dir: string, name: string): string {
    dir + "/" + name
  }

  const CashFile: string := "cash.csv"
  const PositionFile: string := "position.csv"
  const ExecReportFile: string := "execution_report.csv"
  const OrderStatusFile: string := "order_status.csv"
  const StatusChangeFile: string := "order_status_change.csv"
  const OutFiles: set<string> := {CashFile, PositionFile, ExecReportFile, OrderStatusFile, StatusChangeFile}

  /** The account ids and the name and input folder each is registered with. */
  function Folders(m: map<string, AccountEntry>): map<string, (string, string)> {
    map id | id in m :: (m[id].name, m[id].input)
  }

  lemma FoldersUpdate(m: map<string, AccountEntry>, id: string, e: AccountEntry)
    ensures Folders(m[id := e]) == Folders(m)[id := (e.name, e.input)]
  {
  }

  lemma UnionUpdate<K, V>(a: map<K, V>, b: map<K, V>, k: K, v: V)
    ensures (a + b)[k := v] == a + b[k := v]
  {
  }

  /** The registrations of `cs`, a later account with the same id replacing an
      earlier one. */
  function Registered(cs: seq<AccountConfig>): map<string, (string, string)> {
    if |cs| == 0 then map[]
    else Registered(cs[..|cs| - 1])[cs[|cs| - 1].acctId := (cs[|cs| - 1].name, cs[|cs| - 1].acctInput)]
  }

  /** The position of the first account whose input folder is missing, or the
      number of accounts when there is none. */
  function FirstMissing(cs: seq<AccountConfig>, dirs: set<string>): (n: nat)
    ensures n <= |cs|
    ensures forall k :: 0 <= k < n ==> cs[k].acctInput in dirs
    ensures n < |cs| ==> cs[n].acctInput !in dirs
  {
    if |cs| == 0 then 0
    else if cs[0].acctInput !in dirs then 0
    else 1 + FirstMissing(cs[1..], dirs)
  }

  class Registry {
    /** `gm_out_dir` */
    var outDir: string
    /** `account_list` */
    var accounts: map<string, AccountEntry>

    constructor()
      ensures outDir == "" && accounts == map[]
    {
      outDir := "";
      accounts := map[];
    }

    /** `check_gm_account` */
    predicate CheckAccount(id: string)
      reads this
    {
      id in accounts
    }

    /** `get_gm_account_info` */
    function AccountInfo(id: string): (r: Option<AccountEntry>)
      reads this
      ensures r.Some? <==> CheckAccount(id)
    {
      if id in accounts then Some(accounts[id]) else None
    }

    /** The output file `fileName` of an account: nothing for an unregistered
        id, else `<gm_out_dir>/<id>/<fileName>`. */
    function OutCsv(id: string, fileName: string): (r: Option<string>)
      reads this
      ensures r.Some? <==> CheckAccount(id)
    {
      if id in accounts then Some(PathJoin(PathJoin(outDir, id), fileName)) else None
    }

    /** `get_gm_out_csv_cash` */
    function CashCsv(id: string): Option<string> reads this { OutCsv(id, CashFile) }
    /** `get_gm_out_csv_position` */
    function PositionCsv(id: string): Option<string> reads this { OutCsv(id, PositionFile) }
    /** `get_gm_out_csv_execreport` */
    function ExecReportCsv(id: string): Option<string> reads this { OutCsv(id, ExecReportFile) }
    /** `get_gm_out_csv_orderstatus` */
    function OrderStatusCsv(id: string): Option<string> reads this { OutCsv(id, OrderStatusFile) }
    /** `get_gm_out_csv_order_status_change` */
    function StatusChangeCsv(id: string): Option<string> reads this { OutCsv(id, StatusChangeFile) }

    /** `gm_client_wrapper_start`: records the output folder; fails with -1,
        registering nothing, when it is missing; otherwise registers the
        accounts in order with a new free lock each, and fails with -1 at the
        first account whose input folder is missing, keeping the accounts
        registered before it. */
    method Start(gmOutput: string, configs: seq<AccountConfig>, dirs: set<string>) returns (r: int)
      modifies this
      ensures outDir == gmOutput
      ensures gmOutput !in dirs ==> r == -1 && accounts == old(accounts)
      ensures gmOutput in dirs ==>
        var n := FirstMissing(configs, dirs);
        (r == 0 <==> n == |configs|) && (r == -1 <==> n < |configs|)
        && Folders(accounts) == Folders(old(accounts)) + Registered(configs[..n])
        && (forall id :: id in accounts && id !in Registered(configs[..n]) ==> accounts[id] == old(accounts)[id])
        && (forall id :: id in Registered(configs[..n]) ==>
              id in accounts && accounts[id].lock != null
              && fresh(accounts[id].lock) && !accounts[id].lock.held)
    {
      outDir := gmOutput;
      if gmOutput !in dirs {
        return -1;
      }
      var n := FirstMissing(configs, dirs);
      var i := 0;
      while i < |configs|
        invariant 0 <= i <= n
        invariant outDir == gmOutput
        invariant Folders(accounts) == Folders(old(accounts)) + Registered(configs[..i])
        invariant forall id :: id in accounts && id !in Registered(configs[..i]) ==> accounts[id] == old(accounts)[id]
        invariant forall id :: id in Registered(configs[..i]) ==>
                    id in accounts && accounts[id].lock != null
                    && fresh(accounts[id].lock) && !accounts[id].lock.held
      {
        var account := configs[i];
        if account.acctInput !in dirs {
          return -1;
        }
        var lock := new AccountLock();
        var entry := AccountEntry(account.name, account.acctInput, lock);
        FoldersUpdate(accounts, account.acctId, entry);
        assert configs[..i + 1][..i] == configs[..i];
        assert Registered(configs[..i + 1]) == Registered(configs[..i])[account.acctId := (account.name, account.acctInput)];
        UnionUpdate(Folders(old(accounts)), Registered(configs[..i]), account.acctId, (account.name, account.acctInput));
        accounts := accounts[account.acctId := entry];
        i := i + 1;
      }
      assert configs[..i] == configs;
      return 0;
    }
  }

  /** Every output file of an account is its own path: two different
      (account, file) pairs never share a path, for ids and file names
      without a '/'. */
  lemma OutPathsDistinct(outDir: string, id1: string, f1: string, id2: string, f2: string)
    requires '/' !in id1 && '/' !in f1 && '/' !in id2 && '/' !in f2
    requires id1 != id2 || f1 != f2
    ensures PathJoin(PathJoin(outDir, id1), f1) != PathJoin(PathJoin(outDir, id2), f2)
  {
    PathPieces(outDir, id1, f1);
    PathPieces(outDir, id2, f2);
    var s := Split(outDir, '/');
    assert (s + [id1, f1])[|s|] == id1 && (s + [id1, f1])[|s| + 1] == f1;
    assert (s + [id2, f2])[|s|] == id2 && (s + [id2, f2])[|s| + 1] == f2;
  }

  lemma PathPieces(outDir: string, id: string, f: string)
    requires '/' !in id && '/' !in f
    ensures Split(PathJoin(PathJoin(outDir, id), f), '/') == Split(outDir, '/') + [id, f]
  {
    assert PathJoin(outDir, id) == outDir + ['/'] + id;
    assert PathJoin(PathJoin(outDir, id), f) == PathJoin(outDir, id) + ['/'] + f;
    SplitAppend(PathJoin(outDir, id), '/', f);
    SplitAppend(outDir, '/', id);
    SplitNone(id, '/');
    SplitNone(f, '/');
  }

  // Inbox files.

  const OrderSuffix: string := ".order.csv"
  const CancelSuffix: string := ".cancel_order.csv"

  /** `"%4d%02d%02d" % (year, month, day)` followed by the file's suffix. */
  function InboxName(today: DateTime, suffix: string): string
    requires today.Valid()
  {
    SpacePad(today.year, 4) + ZeroPad(today.month, 2) + ZeroPad(today.day, 2) + suffix
  }

  /** For years of four digits the name is the eight digits YYYYMMDD, which
      read back as the date, followed by the suffix. */
  lemma InboxNameRoundTrip(today: DateTime, suffix: string)
    requires today.Valid() && today.year >= 1000
    ensures var n := InboxName(today, suffix);
      |n| == 8 + |suffix| && AllDigits(n[..8]) && n[8..] == suffix
      && DigitsValue(n[..4]) == today.year
      && DigitsValue(n[4..6]) == today.month
      && DigitsValue(n[6..8]) == today.day
  {
    NatToStringLength(today.year);
    NatToStringLength(today.month);
    NatToStringLength(today.day);
    DigitsValueOfNatToString(today.year);
    ZeroPadRoundTrip(today.month, 2);
    ZeroPadRoundTrip(today.day, 2);
    var y, m, d := SpacePad(today.year, 4), ZeroPad(today.month, 2), ZeroPad(today.day, 2);
    assert y == NatToString(today.year);
    var n := InboxName(today, suffix);
    assert n == y + m + d + suffix;
    assert n[..4] == y;
    assert n[4..6] == m;
    assert n[6..8] == d;
    assert n[..8] == y + m + d;
  }

  /** The order inbox and the cancel inbox of a day are different files. */
  lemma InboxNamesDiffer(today: DateTime)
    requires today.Valid()
    ensures InboxName(today, OrderSuffix) != InboxName(today, CancelSuffix)
  {
    var p := SpacePad(today.year, 4) + ZeroPad(today.month, 2) + ZeroPad(today.day, 2);
    assert |p + OrderSuffix| != |p + CancelSuffix|;
  }

  /** `get_gm_in_csv_order` / `get_gm_in_csv_cancelorder` given the account's
      registry entry: nothing when its input folder is missing, else the day's
      file in that folder. */
  function InboxPath(entry: AccountEntry, dirs: set<string>, today: DateTime, suffix: string): (r: Option<string>)
    requires today.Valid()
    ensures r.Some? <==> entry.input in dirs
  {
    if entry.input !in dirs then None else Some(PathJoin(entry.input, InboxName(today, suffix)))
  }

  /** The outcome of the inbox getter as the writers call it. */
  datatype InboxLookup = IndexError | NoFolder | InboxAt(path: string)

  /** The writers pass the account id (a string) where the getter expects the
      registry entry, so `account_info[1]` is the id's second character. */
  function InboxPathAsWritten(accountId: string, dirs: set<string>, today: DateTime, suffix: string): InboxLookup
    requires today.Valid()
  {
    if |accountId| < 2 then IndexError
    else
      var home := accountId[1..2];
      if home !in dirs then NoFolder else InboxAt(PathJoin(home, InboxName(today, suffix)))
  }

  /** An account registered with an existing input folder finds its inbox, but
      the getter as called looks for a folder named after one character of the
      id, and a one-character id raises. */
  lemma InboxAsWrittenMisses(today: DateTime)
    requires today.Valid()
    ensures InboxPath(AccountEntry("main", "/data/in", null), {"/data/in"}, today, OrderSuffix).Some?
    ensures InboxPathAsWritten("12345", {"/data/in"}, today, OrderSuffix) == NoFolder
    ensures InboxPathAsWritten("7", {"/data/in"}, today, OrderSuffix) == IndexError
  {
    assert "12345"[1..2] == "2";
    assert "2" != "/data/in";
  }
}
