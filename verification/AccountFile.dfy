/** The local account file: what a restart reads back after any number of registrations, I/O errors and crashes. */
module AccountFile {
  import opened Basics

  datatype Account = Account(
    username: string, displayName: string, mspId: string, organizationId: string, role: string,
    passwordHash: string, salt: string)

  /** What a file holds, seen through encoding/json. */
  datatype Content = Accounts(list: seq<Account>) | NullJson | Unparsable

  datatype File = Missing | Unreadable | Holds(content: Content)

  /** The account file, its backup, and the two files written before a rename. */
  datatype Disk = Disk(main: File, bak: File, tmp: File, bakTmp: File)

  const BUILT_IN: set<string> := {
    "issuer-org1", "holder-org2", "auditor", "project-member", "project-reviewer", "finance-admin", "org-admin", "org-admin-org2"}

  // ----- what is in a file -----

  predicate NameCharacter(c: char) { 'A' <= c <= 'Z' || 'a' <= c <= 'z' || '0' <= c <= '9' || c == '_' || c == '-' }

  const CAPITALS: set<char> := {'A', 'B', 'C', 'D', 'E', 'F', 'G', 'H', 'I', 'J', 'K', 'L', 'M', 'N', 'O', 'P', 'Q', 'R', 'S', 'T', 'U', 'V', 'W', 'X', 'Y', 'Z'}
  const SMALL_LETTERS: set<char> := {'a', 'b', 'c', 'd', 'e', 'f', 'g', 'h', 'i', 'j', 'k', 'l', 'm', 'n', 'o', 'p', 'q', 'r', 's', 't', 'u', 'v', 'w', 'x', 'y', 'z'}
  const DIGITS: set<char> := {'0', '1', '2', '3', '4', '5', '6', '7', '8', '9'}

  /** Letters, digits, underscore and hyphen. */
  lemma NameCharacterIff(c: char)
    ensures NameCharacter(c) <==> c in CAPITALS || c in SMALL_LETTERS || c in DIGITS || c == '_' || c == '-'
  {
    hide CAPITALS, SMALL_LETTERS, DIGITS;
    CapitalIff(c);
    SmallLetterIff(c);
    DigitIff(c);
  }

  lemma CapitalIff(c: char)
    ensures 'A' <= c <= 'Z' <==> c in CAPITALS
  {
    if 'A' <= c <= 'Z' {
      assert c == (c as int) as char;
      assert c in CAPITALS;
    }
  }

  lemma SmallLetterIff(c: char)
    ensures 'a' <= c <= 'z' <==> c in SMALL_LETTERS
  {
    if 'a' <= c <= 'z' {
      assert c == (c as int) as char;
      assert c in SMALL_LETTERS;
    }
  }

  lemma DigitIff(c: char)
    ensures '0' <= c <= '9' <==> c in DIGITS
  {
    if '0' <= c <= '9' {
      assert c == (c as int) as char;
      assert c in DIGITS;
    }
  }

  /** usernamePattern. */
  predicate ValidName(name: string) { 3 <= |name| <= 32 && forall c :: c in name ==> NameCharacter(c) }

  lemma ValidNameIff(name: string)
    ensures ValidName(name) <==>
            && |name| >= 3 && |name| < 33
            && forall c :: c in name ==> c in CAPITALS || c in SMALL_LETTERS || c in DIGITS || c == '_' || c == '-'
  {
    hide NameCharacter, CAPITALS, SMALL_LETTERS, DIGITS;
    forall c ensures NameCharacter(c) <==> c in CAPITALS || c in SMALL_LETTERS || c in DIGITS || c == '_' || c == '-' {
      NameCharacterIff(c);
    }
  }

  predicate ValidAccount(a: Account) { ValidName(a.username) && a.passwordHash != "" && a.salt != "" }

  lemma IsValid(a: Account)
    ensures ValidAccount(a) <==> ValidName(a.username) && a.passwordHash != "" && a.salt != ""
  {}

  predicate WellFormed(list: seq<Account>) {
    && (forall i :: 0 <= i < |list| ==> ValidAccount(list[i]))
    && (forall i, j :: 0 <= i < j < |list| ==> list[i].username != list[j].username)
  }

  function Decode(content: Content): Option<seq<Account>> {
    if content.Accounts? && WellFormed(content.list) then Some(content.list) else None
  }

  predicate Decodes(file: File) { file.Holds? && Decode(file.content).Some? }

  /** The accounts of a list by name; a later entry replaces an earlier one. */
  function ByName(list: seq<Account>): map<string, Account> {
    if list == [] then map[] else ByName(list[..|list| - 1])[list[|list| - 1].username := list[|list| - 1]]
  }

  /** What loadAccounts adds to the built-in accounts, if it does not fail. */
  function Restart(d: Disk): Option<map<string, Account>> {
    var source := if d.main.Missing? then d.bak else d.main;
    if source.Missing? then Some(map[])
    else if Decodes(source) then Some(ByName(source.content.list))
    else if source.Holds? && Decodes(d.bak) then Some(ByName(d.bak.content.list))
    else None
  }

  predicate Keyed(m: map<string, Account>) { forall u :: u in m ==> m[u].username == u && ValidAccount(m[u]) }

  /** The list holds every account of the map once, in any order: Go does not fix the order of a map. */
  ghost predicate Lists(list: seq<Account>, m: map<string, Account>) {
    && (forall i :: 0 <= i < |list| ==> list[i].username in m && m[list[i].username] == list[i])
    && (forall i, j :: 0 <= i < j < |list| ==> list[i].username != list[j].username)
    && (forall u :: u in m ==> m[u] in list)
  }

  lemma LastIsNew(list: seq<Account>)
    requires WellFormed(list) && list != []
    ensures WellFormed(list[..|list| - 1]) && ValidAccount(list[|list| - 1])
    ensures forall a :: a in list[..|list| - 1] ==> a.username != list[|list| - 1].username
  {
    hide ValidAccount;
    var init := list[..|list| - 1];
    forall a | a in init ensures a.username != list[|list| - 1].username {
      var i :| 0 <= i < |init| && init[i] == a;
    }
  }

  lemma KeyedSnoc(m: map<string, Account>, a: Account)
    requires Keyed(m) && ValidAccount(a)
    ensures Keyed(m[a.username := a])
  {
    hide ValidAccount;
  }

  lemma {:induction false} ByNameSound(list: seq<Account>)
    requires WellFormed(list)
    ensures Keyed(ByName(list))
    ensures forall a :: a in list ==> a.username in ByName(list) && ByName(list)[a.username] == a
    ensures forall u :: u in ByName(list) ==> ByName(list)[u] in list
    decreases |list|
  {
    if list != [] {
      var init, last := list[..|list| - 1], list[|list| - 1];
      LastIsNew(list);
      hide WellFormed, ValidAccount, Keyed;
      ByNameSound(init);
      KeyedSnoc(ByName(init), last);
      assert list == init + [last];
    }
  }

  /** Writing a map of accounts and reading it back gives the map, whatever the order. */
  lemma DecodeOfListing(list: seq<Account>, m: map<string, Account>)
    requires Lists(list, m) && Keyed(m)
    ensures Decode(Accounts(list)) == Some(list) && ByName(list) == m
  {
    assert WellFormed(list);
    ByNameSound(list);
    assert forall u :: u in m ==> m[u].username == u;
  }

  lemma RestartIsKeyed(d: Disk)
    requires Restart(d).Some?
    ensures Keyed(Restart(d).value)
  {
    if Decodes(d.main) { ByNameSound(d.main.content.list); }
    if Decodes(d.bak) { ByNameSound(d.bak.content.list); }
  }

  // ----- what a start reads -----

  /** The file is a list of valid accounts with distinct names, those of the map. */
  ghost predicate IsListOf(file: File, m: map<string, Account>) {
    file.Holds? && file.content.Accounts? && Lists(file.content.list, m) && Keyed(m)
  }

  ghost predicate IsAccountList(file: File) { exists m :: IsListOf(file, m) }

  lemma ListOfIsDecoded(file: File, m: map<string, Account>)
    ensures IsListOf(file, m) <==> Decodes(file) && ByName(file.content.list) == m
  {
    if IsListOf(file, m) {
      DecodeOfListing(file.content.list, m);
    } else if Decodes(file) && ByName(file.content.list) == m {
      ByNameSound(file.content.list);
      assert Lists(file.content.list, m);
    }
  }

  lemma AccountListIff(file: File)
    ensures IsAccountList(file) <==> Decodes(file)
  {
    hide IsListOf, ByName, WellFormed;
    if Decodes(file) { ListOfIsDecoded(file, ByName(file.content.list)); }
    if IsAccountList(file) {
      var m :| IsListOf(file, m);
      ListOfIsDecoded(file, m);
    }
  }

  /** The accounts that a start finds: those of the main file; those of the backup when the main file is missing or holds something
      else than accounts; none when both are missing. A main file that cannot be read is no reason to look at the backup. */
  ghost predicate Finds(d: Disk, m: map<string, Account>) {
    || IsListOf(d.main, m)
    || ((d.main.Missing? || (d.main.Holds? && !IsAccountList(d.main))) && IsListOf(d.bak, m))
    || (d.main.Missing? && d.bak.Missing? && m == map[])
  }

  lemma RestartIff(d: Disk, m: map<string, Account>)
    ensures Restart(d) == Some(m) <==> Finds(d, m)
  {
    hide IsListOf, IsAccountList, ByName, WellFormed, Decode;
    ListOfIsDecoded(d.main, m);
    ListOfIsDecoded(d.bak, m);
    AccountListIff(d.main);
  }

  // ----- a save, step by step -----

  datatype Operation =
    | WriteBackup(content: Content)
    | RenameBackup
    | WriteMain(content: Content)
    | RenameMain

  function Do(d: Disk, op: Operation): Disk {
    match op
    case WriteBackup(c) => d.(bakTmp := Holds(c))
    case RenameBackup => d.(bak := d.bakTmp, bakTmp := Missing)
    case WriteMain(c) => d.(tmp := Holds(c))
    case RenameMain => d.(main := d.tmp, tmp := Missing)
  }

  /** An operation that fails or is cut short: a write can leave anything in its file, a rename is all or nothing. */
  function Break(d: Disk, op: Operation, torn: File): Disk {
    match op
    case WriteBackup(_) => d.(bakTmp := torn)
    case WriteMain(_) => d.(tmp := torn)
    case _ => d
  }

  /** The operations of saveRegisteredAccountsLocked, which never overwrites the backup with a damaged file. */
  function Operations(d: Disk, data: Content): seq<Operation> {
    if d.main.Unreadable? then []
    else (if Decodes(d.main) then [WriteBackup(d.main.content), RenameBackup] else []) + [WriteMain(data), RenameMain]
  }

  predicate SaveCompletes(d: Disk, data: Content, healthy: nat) {
    !d.main.Unreadable? && healthy >= |Operations(d, data)|
  }

  /** The disk after a run of operations of which only the first `healthy` succeed. */
  function RunOperations(d: Disk, ops: seq<Operation>, healthy: nat, torn: File): Disk
    decreases |ops|
  {
    if ops == [] then d
    else if healthy == 0 then Break(d, ops[0], torn)
    else RunOperations(Do(d, ops[0]), ops[1..], healthy - 1, torn)
  }

  function Saved(d: Disk, data: Content, healthy: nat, torn: File): Disk {
    RunOperations(d, Operations(d, data), healthy, torn)
  }

  /** The last two operations of a save. */
  function WroteMain(d: Disk, data: Content, healthy: nat, torn: File): Disk {
    if healthy == 0 then d.(tmp := torn)
    else if healthy == 1 then d.(tmp := Holds(data))
    else d.(main := Holds(data), tmp := Missing)
  }

  lemma FirstOperation(d: Disk, op: Operation, rest: seq<Operation>, healthy: nat, torn: File)
    ensures RunOperations(d, [op] + rest, healthy, torn) ==
            if healthy == 0 then Break(d, op, torn) else RunOperations(Do(d, op), rest, healthy - 1, torn)
  {
    assert ([op] + rest)[1..] == rest;
  }

  lemma MainIsWritten(d: Disk, data: Content, healthy: nat, torn: File)
    ensures RunOperations(d, [WriteMain(data), RenameMain], healthy, torn) == WroteMain(d, data, healthy, torn)
  {
    assert [WriteMain(data), RenameMain] == [WriteMain(data)] + [RenameMain] && [RenameMain] == [RenameMain] + [];
    FirstOperation(d, WriteMain(data), [RenameMain], healthy, torn);
    if healthy > 0 { FirstOperation(Do(d, WriteMain(data)), RenameMain, [], healthy - 1, torn); }
  }

  lemma SavedInTwoSteps(d: Disk, data: Content, healthy: nat, torn: File)
    requires !d.main.Unreadable? && !Decodes(d.main)
    ensures Saved(d, data, healthy, torn) == WroteMain(d, data, healthy, torn)
  {
    hide RunOperations;
    assert Operations(d, data) == [WriteMain(data), RenameMain];
    MainIsWritten(d, data, healthy, torn);
  }

  lemma SavedInFourSteps(d: Disk, data: Content, healthy: nat, torn: File)
    requires Decodes(d.main)
    ensures Saved(d, data, healthy, torn) ==
            if healthy == 0 then d.(bakTmp := torn)
            else if healthy == 1 then d.(bakTmp := d.main)
            else WroteMain(d.(bak := d.main, bakTmp := Missing), data, healthy - 2, torn)
  {
    hide RunOperations, WroteMain;
    var last := [WriteMain(data), RenameMain];
    var backup := WriteBackup(d.main.content);
    assert Operations(d, data) == [backup] + ([RenameBackup] + last);
    FirstOperation(d, backup, [RenameBackup] + last, healthy, torn);
    if healthy > 0 { FirstOperation(Do(d, backup), RenameBackup, last, healthy - 1, torn); }
    if healthy > 1 { MainIsWritten(d.(bak := d.main, bakTmp := Missing), data, healthy - 2, torn); }
  }

  /** Crash consistency: wherever a save stops, and whatever a torn write leaves behind, the next start reads back the
      accounts from before the save, or, once its last operation is done, exactly the accounts it was given. */
  lemma CrashConsistent(d: Disk, data: seq<Account>, healthy: nat, torn: File, m: map<string, Account>)
    requires Restart(d).Some? && Lists(data, m) && Keyed(m)
    ensures Restart(Saved(d, Accounts(data), healthy, torn)) ==
            if SaveCompletes(d, Accounts(data), healthy) then Some(m) else Restart(d)
  {
    DecodeOfListing(data, m);
    hide Saved, ByName, WellFormed, Decode, Lists, Keyed;
    if Decodes(d.main) {
      SavedInFourSteps(d, Accounts(data), healthy, torn);
    } else if !d.main.Unreadable? {
      SavedInTwoSteps(d, Accounts(data), healthy, torn);
    }
  }

  /** A completed save over a readable list of accounts keeps that list as the backup: if the main file is then lost, or damaged so that
      it is no list of accounts, a start finds exactly the accounts from before the save. */
  lemma BackupIsThePreviousList(d: Disk, before: map<string, Account>, data: Content, healthy: nat, torn: File, damaged: File)
    requires IsListOf(d.main, before) && SaveCompletes(d, data, healthy)
    requires damaged.Missing? || (damaged.Holds? && !IsAccountList(damaged))
    ensures Finds(Saved(d, data, healthy, torn).(main := damaged), before)
  {
    ListOfIsDecoded(d.main, before);
    hide Saved, IsListOf, IsAccountList, ByName, Decode;
    SavedInFourSteps(d, data, healthy, torn);
  }

  /** A save over a main file that is no list of accounts, from which a start has recovered, leaves the backup alone wherever it stops. */
  lemma DamagedMainKeepsBackup(d: Disk, data: Content, healthy: nat, torn: File)
    requires !IsAccountList(d.main)
    ensures Saved(d, data, healthy, torn).bak == d.bak
  {
    AccountListIff(d.main);
    hide Saved, IsAccountList, ByName, Decode;
    if d.main.Unreadable? { SavesNothing(d, data, healthy, torn); } else { SavedInTwoSteps(d, data, healthy, torn); }
  }

  lemma SavesNothing(d: Disk, data: Content, healthy: nat, torn: File)
    requires d.main.Unreadable?
    ensures Saved(d, data, healthy, torn) == d
  {}

  // ----- registrations -----

  /** The accounts that a save writes. */
  function Registered(accounts: map<string, Account>): map<string, Account> { accounts - BUILT_IN }

  /** A completed save loses no registered account, and it keeps all that the file held exactly when the file held none
      under a built-in name: those it leaves out. */
  lemma SaveKeepsAllIff(d: Disk, builtIn: map<string, Account>, a: Account, data: seq<Account>, healthy: nat, torn: File)
    requires Restart(d).Some? && builtIn.Keys == BUILT_IN && Keyed(builtIn) && ValidAccount(a)
    requires a.username !in builtIn + Restart(d).value
    requires Lists(data, Registered((builtIn + Restart(d).value)[a.username := a])) && SaveCompletes(d, Accounts(data), healthy)
    ensures Restart(Saved(d, Accounts(data), healthy, torn)) == Some(Registered(Restart(d).value)[a.username := a])
    ensures Restart(Saved(d, Accounts(data), healthy, torn)) == Some(Restart(d).value[a.username := a])
            <==> Restart(d).value.Keys !! BUILT_IN
  {
    RestartIsKeyed(d);
    var stored := Restart(d).value;
    var m := Registered((builtIn + stored)[a.username := a]);
    assert m == Registered(stored)[a.username := a];
    CrashConsistent(d, data, healthy, torn, m);
    hide Saved, Restart;
    if stored.Keys !! BUILT_IN {
      assert Registered(stored) == stored;
    } else {
      var u :| u in stored && u in BUILT_IN;
      assert u !in m && u in stored[a.username := a];
    }
  }

  /** Such a file: it holds an account named auditor, which the next completed save drops. */
  lemma BuiltInNameIsDropped(builtIn: map<string, Account>, a: Account, held: Account, data: seq<Account>)
    requires builtIn.Keys == BUILT_IN && Keyed(builtIn)
    requires ValidAccount(held) && held.username == "auditor" && ValidAccount(a) && a.username !in builtIn
    requires Lists(data, Registered((builtIn + map["auditor" := held])[a.username := a]))
    ensures var d := Disk(Holds(Accounts([held])), Missing, Missing, Missing);
            && Restart(d) == Some(map["auditor" := held])
            && Restart(Saved(d, Accounts(data), 4, Missing)) == Some(map[a.username := a])
  {
    var d := Disk(Holds(Accounts([held])), Missing, Missing, Missing);
    assert WellFormed([held]);
    assert [held][..0] == [];
    assert ByName([held]) == map["auditor" := held];
    hide Saved;
    SaveKeepsAllIff(d, builtIn, a, data, 4, Missing);
    assert Registered(map["auditor" := held])[a.username := a] == map[a.username := a];
  }

  /** One call of RegisterAccount for a new name, with the number of file operations that succeed in it. It ends in
      success, in an error that rolls memory back, or in a crash and a restart. */
  datatype Attempt = Attempt(account: Account, data: seq<Account>, healthy: nat, torn: File)

  /** The disk and, beside the built-in accounts, the accounts in memory. */
  datatype Host = Host(disk: Disk, registered: map<string, Account>)

  predicate Completes(h: Host, t: Attempt) { SaveCompletes(h.disk, Accounts(t.data), t.healthy) }

  function After(h: Host, t: Attempt): Host {
    Host(Saved(h.disk, Accounts(t.data), t.healthy, t.torn),
         if Completes(h, t) then h.registered[t.account.username := t.account] else h.registered)
  }

  function AfterAll(h: Host, attempts: seq<Attempt>): Host
    decreases |attempts|
  {
    if attempts == [] then h else AfterAll(After(h, attempts[0]), attempts[1..])
  }

  ghost predicate Possible(h: Host, t: Attempt) {
    && ValidAccount(t.account) && t.account.username !in BUILT_IN + h.registered.Keys
    && Lists(t.data, h.registered[t.account.username := t.account])
  }

  ghost predicate AllPossible(h: Host, attempts: seq<Attempt>)
    decreases |attempts|
  {
    attempts != [] ==> Possible(h, attempts[0]) && AllPossible(After(h, attempts[0]), attempts[1..])
  }

  /** Memory is what a restart would read, and holds no built-in name. */
  ghost predicate InStep(h: Host) {
    Restart(h.disk) == Some(h.registered) && h.registered.Keys !! BUILT_IN
  }

  /** The registrations whose save completed, in order. */
  function Completed(h: Host, attempts: seq<Attempt>): seq<Account>
    decreases |attempts|
  {
    if attempts == [] then []
    else (if Completes(h, attempts[0]) then [attempts[0].account] else []) + Completed(After(h, attempts[0]), attempts[1..])
  }

  lemma AttemptStaysInStep(h: Host, t: Attempt)
    requires InStep(h) && Possible(h, t)
    ensures InStep(After(h, t))
  {
    RestartIsKeyed(h.disk);
    CrashConsistent(h.disk, t.data, t.healthy, t.torn, h.registered[t.account.username := t.account]);
  }

  /** Over any number of registrations, failures and crashes, a restart reads back exactly what memory holds. */
  lemma {:induction false} RestartEqualsMemory(h: Host, attempts: seq<Attempt>)
    requires InStep(h) && AllPossible(h, attempts)
    ensures InStep(AfterAll(h, attempts))
    decreases |attempts|
  {
    hide After, InStep, Possible;
    if attempts != [] {
      AttemptStaysInStep(h, attempts[0]);
      RestartEqualsMemory(After(h, attempts[0]), attempts[1..]);
    }
  }

  /** ... and that is the accounts from the start and those whose save completed: nothing lost, nothing made up. */
  lemma {:induction false} OnlyCompletedSavesCount(h: Host, attempts: seq<Attempt>, u: string)
    requires AllPossible(h, attempts)
    ensures u in AfterAll(h, attempts).registered <==>
            u in h.registered || exists a :: a in Completed(h, attempts) && a.username == u
    ensures u in h.registered ==> AfterAll(h, attempts).registered[u] == h.registered[u]
    ensures forall a :: a in Completed(h, attempts) && a.username == u ==> AfterAll(h, attempts).registered[u] == a
    decreases |attempts|
  {
    hide Saved, SaveCompletes, Lists, ValidAccount;
    if attempts != [] {
      OnlyCompletedSavesCount(After(h, attempts[0]), attempts[1..], u);
    }
  }

  // ----- the service -----

  /** The files of the service, and how many more operations on them will succeed. */
  class FileSystem {
    var disk: Disk
    var healthy: nat
    const torn: File

    constructor (disk: Disk, healthy: nat, torn: File)
      ensures this.disk == disk && this.healthy == healthy && this.torn == torn
    {
      this.disk, this.healthy, this.torn := disk, healthy, torn;
    }

    method Perform(op: Operation) returns (ok: bool)
      modifies this
      ensures ok == (old(healthy) > 0)
      ensures disk == if ok then Do(old(disk), op) else Break(old(disk), op, torn)
      ensures healthy == if ok then old(healthy) - 1 else 0
    {
      ok := healthy > 0;
      if ok {
        disk := Do(disk, op);
        healthy := healthy - 1;
      } else {
        disk := Break(disk, op, torn);
      }
    }
  }

  /** decodeAccounts. */
  method DecodeAccounts(content: Content) returns (r: Option<seq<Account>>)
    ensures r == Decode(content)
  {
    if !content.Accounts? { return None; }
    var stored := content.list;
    var seen: set<string> := {};
    for i := 0 to |stored|
      invariant WellFormed(stored[..i])
      invariant forall u :: u in seen <==> exists k :: 0 <= k < i && stored[k].username == u
    {
      var current := stored[i];
      if !ValidName(current.username) || current.passwordHash == "" || current.salt == "" || current.username in seen {
        return None;
      }
      seen := seen + {current.username};
    }
    assert stored[..|stored|] == stored;
    return Some(stored);
  }

  class Service {
    var accounts: map<string, Account>
    const files: FileSystem

    /** The built-in accounts of NewService, before the file is read. */
    constructor (files: FileSystem, builtIn: map<string, Account>)
      ensures this.files == files && accounts == builtIn
    {
      this.files := files;
      accounts := builtIn;
    }

    method LoadAccounts() returns (ok: bool)
      modifies this
      ensures ok == Restart(files.disk).Some?
      ensures accounts == if ok then old(accounts) + Restart(files.disk).value else old(accounts)
      ensures ok <==> exists m :: Finds(files.disk, m)
      ensures forall m :: Finds(files.disk, m) ==> accounts == old(accounts) + m
    {
      ok := ReadAccounts();
      hide *;
      forall m ensures Restart(files.disk) == Some(m) <==> Finds(files.disk, m) { RestartIff(files.disk, m); }
      if ok { assert Finds(files.disk, Restart(files.disk).value); }
    }

    method ReadAccounts() returns (ok: bool)
      modifies this
      ensures ok == Restart(files.disk).Some?
      ensures accounts == if ok then old(accounts) + Restart(files.disk).value else old(accounts)
    {
      hide ByName, WellFormed;
      var data := files.disk.main;
      if data.Missing? {
        data := files.disk.bak;
        if data.Missing? {
          assert accounts + map[] == accounts;
          return true;
        }
      }
      if data.Unreadable? { return false; }
      var stored := DecodeAccounts(data.content);
      if stored.None? {
        if !files.disk.bak.Holds? { return false; }
        stored := DecodeAccounts(files.disk.bak.content);
        if stored.None? { return false; }
      }
      AddAccounts(stored.value);
      return true;
    }

    /** The loop of loadAccounts; its test repeats what decodeAccounts has already checked. */
    method AddAccounts(list: seq<Account>)
      requires WellFormed(list)
      modifies this
      ensures accounts == old(accounts) + ByName(list)
    {
      hide ValidAccount, ValidName;
      ghost var before := accounts;
      for i := 0 to |list|
        invariant accounts == before + ByName(list[..i])
      {
        assert list[..i + 1][..i] == list[..i];
        var current := list[i];
        assert ValidAccount(current);
        IsValid(current);
        if ValidName(current.username) && current.passwordHash != "" && current.salt != "" {
          accounts := accounts[current.username := current];
        }
      }
      assert list[..|list|] == list;
    }

    /** The loop of saveRegisteredAccountsLocked over the map in memory. */
    method ListRegistered() returns (stored: seq<Account>)
      requires Keyed(accounts)
      ensures Lists(stored, Registered(accounts))
    {
      stored := [];
      var names := accounts.Keys;
      while names != {}
        invariant names <= accounts.Keys
        invariant Lists(stored, map u | u in accounts && u !in names && u !in BUILT_IN :: accounts[u])
        decreases names
      {
        var username :| username in names;
        names := names - {username};
        if username !in BUILT_IN { stored := stored + [accounts[username]]; }
      }
      assert (map u | u in accounts && u !in names && u !in BUILT_IN :: accounts[u]) == Registered(accounts);
    }

    /** saveRegisteredAccountsLocked: the list that it wrote comes back as `data`. */
    method SaveRegisteredAccounts() returns (ok: bool, ghost data: seq<Account>)
      requires Keyed(accounts)
      modifies files
      ensures Lists(data, Registered(accounts))
      ensures ok == SaveCompletes(old(files.disk), Accounts(data), old(files.healthy))
      ensures files.disk == Saved(old(files.disk), Accounts(data), old(files.healthy), files.torn)
    {
      var stored := ListRegistered();
      data := stored;
      ghost var d, healthy := files.disk, files.healthy;
      var previous := files.disk.main;
      if previous.Unreadable? { return false, data; }
      hide Saved, Lists, Registered, Keyed, Decode;
      if Decodes(d.main) {
        SavedInFourSteps(d, Accounts(data), healthy, files.torn);
      } else {
        SavedInTwoSteps(d, Accounts(data), healthy, files.torn);
      }
      if previous.Holds? {
        var valid := DecodeAccounts(previous.content);
        if valid.Some? {
          ok := files.Perform(WriteBackup(previous.content));
          if !ok { return false, data; }
          ok := files.Perform(RenameBackup);
          if !ok { return false, data; }
        }
      }
      ok := files.Perform(WriteMain(Accounts(stored)));
      if !ok { return false, data; }
      ok := files.Perform(RenameMain);
    }

    /** RegisterAccount, the salt and the hash of the password given: memory and disk either both take the account, or
        both are as if the call had not been made. */
    method RegisterAccount(created: Account, passwordOk: bool) returns (ok: bool)
      requires created.passwordHash != "" && created.salt != ""
      requires accounts.Keys >= BUILT_IN && Keyed(accounts)
      requires InStep(Host(files.disk, Registered(accounts)))
      modifies this, files
      ensures InStep(Host(files.disk, Registered(accounts)))
      ensures accounts == if ok then old(accounts)[created.username := created] else old(accounts)
      ensures ok <==>
                && Registrable(created) && passwordOk && created.username !in old(accounts)
                && old(files.healthy) >= if IsAccountList(old(files.disk).main) then 4 else 2
      ensures Keyed(accounts)
    {
      if !ValidName(created.username) || !passwordOk || created.displayName == "" || created.organizationId == ""
         || !ValidRole(created.role) || created.username in accounts || (created.mspId != "Org1MSP" && created.mspId != "Org2MSP")
      {
        return false;
      }
      accounts := accounts[created.username := created];
      ghost var data;
      ghost var d, healthy := files.disk, files.healthy;
      ok, data := SaveRegisteredAccounts();
      SaveCompletesIff(d, Accounts(data), healthy);
      SavedAttempt(old(accounts), created, Attempt(created, data, healthy, files.torn), d);
      hide *;
      if !ok { accounts := accounts - {created.username}; }
    }

    /** A save after a successful start takes four file operations, or two when there is no list of accounts to keep as the backup. */
    static lemma SaveCompletesIff(d: Disk, data: Content, healthy: nat)
      requires Restart(d).Some?
      ensures SaveCompletes(d, data, healthy) <==> healthy >= if IsAccountList(d.main) then 4 else 2
    {
      hide IsAccountList;
      AccountListIff(d.main);
    }

    /** What a save after putting one account in memory leaves behind. */
    static lemma SavedAttempt(before: map<string, Account>, created: Account, t: Attempt, d: Disk)
      requires InStep(Host(d, Registered(before))) && before.Keys >= BUILT_IN && Keyed(before)
      requires ValidAccount(created) && created.username !in before && t.account == created
      requires Lists(t.data, Registered(before[created.username := created]))
      ensures Keyed(before[created.username := created])
      ensures var saved := Saved(d, Accounts(t.data), t.healthy, t.torn);
              if SaveCompletes(d, Accounts(t.data), t.healthy) then InStep(Host(saved, Registered(before[created.username := created])))
              else InStep(Host(saved, Registered(before))) && before[created.username := created] - {created.username} == before
    {
      hide Saved, Lists, Restart, SaveCompletes;
      var h := Host(d, Registered(before));
      assert Registered(before)[created.username := created] == Registered(before[created.username := created]);
      AttemptStaysInStep(h, t);
    }
  }

  /** What a registration asks of the account. */
  predicate Registrable(a: Account) {
    ValidName(a.username) && a.displayName != "" && a.organizationId != "" && ValidRole(a.role) && a.mspId in {"Org1MSP", "Org2MSP"}
  }

  predicate ValidRole(role: string) {
    role in {"ISSUER", "HOLDER", "AUDITOR", "PROJECT_MEMBER", "PROJECT_REVIEWER", "FINANCE_ADMIN", "ORG_ADMIN"}
  }
}
