/** internal/store/sessions.go and internal/store/tags.go: the tag and session tables, with their protected columns
    encrypted at rest. Each method is one statement or transaction under the write lock. */
module Store {
  import opened ByteStrings
  import opened Secret
  import opened Sessions
  import opened Wrappers
  import Hex
  import JoinFrames

  const NOT_FOUND := "store: not found"
  const APP_KEY: string := "app_key"
  const NWK_SKEY: string := "nwk_skey"
  const APP_SKEY: string := "app_skey"

  datatype NewTag = NewTag(devEui: string, joinEui: string, appKey: string, fport: nat, enabled: bool)

  datatype Tag = Tag(id: nat, devEui: string, joinEui: string, appKey: string, fport: nat, enabled: bool)

  /** A row of the tags table; `appKey` is the stored, protected form. */
  datatype TagRow = TagRow(devEui: string, joinEui: string, appKey: string, fport: nat, enabled: bool)

  /** A row of the sessions table; the two keys are the stored, protected forms, NULL before the first join. */
  datatype SessionRow = SessionRow(
    devAddr: Option<string>, nwkSKey: Option<string>, appSKey: Option<string>, fcntUp: nat, fcntDown: nat,
    devNonce: nat, rxDelay: nat, rx1DrOffset: nat, rx2Dr: nat, joined: bool)

  const NEW_ROW := SessionRow(None, None, None, 0, 0, 0, 0, 0, 0, false)

  datatype Db = Db(tags: map<nat, TagRow>, sessions: map<nat, SessionRow>, nextId: nat)

  const EMPTY_DB := Db(map[], map[], 1)

  // Statements

  /** INSERT into tags and sessions in one transaction; DevEUIs are unique and ids are never used again. */
  function CreateTag(c: Cipher, db: Db, t: NewTag, nonce: GcmNonce): (r: (Db, Result<nat>)) {
    if exists id <- db.tags :: db.tags[id].devEui == t.devEui then (db, Err("inserting tag"))
    else
      var row := TagRow(
        t.devEui, t.joinEui, Encrypt(c, nonce, t.appKey, TagAad(t.devEui, APP_KEY)), t.fport, t.enabled);
      (Db(db.tags[db.nextId := row], db.sessions[db.nextId := NEW_ROW], db.nextId + 1), Ok(db.nextId))
  }

  /** DELETE from tags, cascading to the session. */
  function DeleteTag(db: Db, id: nat): (Db, Result<()>) {
    if id in db.tags then (Db(db.tags - {id}, db.sessions - {id}, db.nextId), Ok(())) else (db, Err(NOT_FOUND))
  }

  function GetTag(c: Cipher, db: Db, id: nat): Result<Tag> {
    if id !in db.tags then Err(NOT_FOUND)
    else
      var row := db.tags[id];
      match Decrypt(c, row.appKey, TagAad(row.devEui, APP_KEY))
      case Err(e) => Err(e)
      case Ok(appKey) => Ok(Tag(id, row.devEui, row.joinEui, appKey, row.fport, row.enabled))
  }

  function OpenColumn(c: Cipher, stored: Option<string>, aad: string): Result<string> {
    match stored
    case None => Ok("")
    case Some(v) => Decrypt(c, v, aad)
  }

  function GetSession(c: Cipher, db: Db, id: nat): Result<Session> {
    if id !in db.sessions then Err(NOT_FOUND)
    else
      var row := db.sessions[id];
      if row.devNonce >= TWO_TO_16 || row.fcntUp >= TWO_TO_32 || row.fcntDown >= TWO_TO_32 then Err("querying session")
      else
        var nwk := OpenColumn(c, row.nwkSKey, SessionAad(id, NWK_SKEY));
        var app := OpenColumn(c, row.appSKey, SessionAad(id, APP_SKEY));
        if nwk.Err? then Err(nwk.msg)
        else if app.Err? then Err(app.msg)
        else
          var devAddr := if row.devAddr.Some? then row.devAddr.value else "";
          Ok(Session(devAddr, nwk.value, app.value, row.fcntUp, row.fcntDown, row.devNonce,
                     row.rxDelay, row.rx1DrOffset, row.rx2Dr, row.joined))
  }

  function SetRow(db: Db, id: nat, row: SessionRow): Db {
    db.(sessions := db.sessions[id := row])
  }

  /** UPDATE … RETURNING: the increment is kept even when the returned value does not fit a uint16. */
  function NextDevNonce(db: Db, id: nat): (Db, Result<nat>) {
    if id !in db.sessions then (db, Err(NOT_FOUND))
    else
      var row := db.sessions[id].(devNonce := db.sessions[id].devNonce + 1);
      (SetRow(db, id, row), if row.devNonce < TWO_TO_16 then Ok(row.devNonce) else Err("incrementing dev_nonce"))
  }

  function SaveJoinResult(c: Cipher, db: Db, id: nat, js: JoinState, n1: GcmNonce, n2: GcmNonce): (Db, Result<()>) {
    if id !in db.sessions then (db, Err(NOT_FOUND))
    else
      var row := SessionRow(Some(js.devAddr),
                            Some(Encrypt(c, n1, js.nwkSKey, SessionAad(id, NWK_SKEY))),
                            Some(Encrypt(c, n2, js.appSKey, SessionAad(id, APP_SKEY))),
                            0, 0, db.sessions[id].devNonce, js.rxDelay, js.rx1DrOffset, js.rx2Dr, true);
      (SetRow(db, id, row), Ok(()))
  }

  function TakeFCntUp(db: Db, id: nat): (Db, Result<nat>) {
    if id !in db.sessions then (db, Err(NOT_FOUND))
    else
      var used := db.sessions[id].fcntUp;
      (SetRow(db, id, db.sessions[id].(fcntUp := used + 1)),
       if used < TWO_TO_32 then Ok(used) else Err("taking fcnt_up"))
  }

  function SetFCntDown(db: Db, id: nat, fcnt: nat): (Db, Result<()>) {
    if id !in db.sessions then (db, Err(NOT_FOUND)) else (SetRow(db, id, db.sessions[id].(fcntDown := fcnt)), Ok(()))
  }

  // The repository

  class Repo {
    const cipher: Cipher
    var tags: map<nat, TagRow>
    var sessions: map<nat, SessionRow>
    var nextId: nat

    function State(): Db
      reads this
    {
      Db(tags, sessions, nextId)
    }

    constructor (cipher: Cipher)
      ensures this.cipher == cipher && State() == EMPTY_DB
    {
      this.cipher := cipher;
      tags, sessions, nextId := map[], map[], 1;
    }

    method Create(t: NewTag, nonce: GcmNonce) returns (r: Result<nat>)
      modifies this
      ensures (State(), r) == CreateTag(cipher, old(State()), t, nonce)
    {
      var protected := Encrypt(cipher, nonce, t.appKey, TagAad(t.devEui, APP_KEY));
      if exists id <- tags :: tags[id].devEui == t.devEui {
        return Err("inserting tag");
      }
      var id := nextId;
      tags := tags[id := TagRow(t.devEui, t.joinEui, protected, t.fport, t.enabled)];
      sessions := sessions[id := NEW_ROW];
      nextId := nextId + 1;
      r := Ok(id);
    }

    method Delete(id: nat) returns (r: Result<()>)
      modifies this
      ensures (State(), r) == DeleteTag(old(State()), id)
    {
      if id !in tags {
        return Err(NOT_FOUND);
      }
      tags := tags - {id};
      sessions := sessions - {id};
      r := Ok(());
    }

    method Get(id: nat) returns (r: Result<Session>)
      ensures r == GetSession(cipher, State(), id)
    {
      r := GetSession(cipher, State(), id);
    }

    method TakeNonce(id: nat) returns (r: Result<nat>)
      modifies this
      ensures (State(), r) == NextDevNonce(old(State()), id)
    {
      if id !in sessions {
        return Err(NOT_FOUND);
      }
      var next := sessions[id].devNonce + 1;
      sessions := sessions[id := sessions[id].(devNonce := next)];
      r := if next < TWO_TO_16 then Ok(next) else Err("incrementing dev_nonce");
    }

    method SaveJoin(id: nat, js: JoinState, n1: GcmNonce, n2: GcmNonce) returns (r: Result<()>)
      modifies this
      ensures (State(), r) == SaveJoinResult(cipher, old(State()), id, js, n1, n2)
    {
      var nwk := Encrypt(cipher, n1, js.nwkSKey, SessionAad(id, NWK_SKEY));
      var app := Encrypt(cipher, n2, js.appSKey, SessionAad(id, APP_SKEY));
      if id !in sessions {
        return Err(NOT_FOUND);
      }
      var row := sessions[id].(devAddr := Some(js.devAddr), nwkSKey := Some(nwk), appSKey := Some(app));
      row := row.(rxDelay := js.rxDelay, rx1DrOffset := js.rx1DrOffset, rx2Dr := js.rx2Dr);
      row := row.(joined := true, fcntUp := 0, fcntDown := 0);
      sessions := sessions[id := row];
      r := Ok(());
    }

    method TakeCounter(id: nat) returns (r: Result<nat>)
      modifies this
      ensures (State(), r) == TakeFCntUp(old(State()), id)
    {
      if id !in sessions {
        return Err(NOT_FOUND);
      }
      var used := sessions[id].fcntUp;
      sessions := sessions[id := sessions[id].(fcntUp := used + 1)];
      r := if used < TWO_TO_32 then Ok(used) else Err("taking fcnt_up");
    }

    method StoreFCntDown(id: nat, fcnt: nat) returns (r: Result<()>)
      modifies this
      ensures (State(), r) == SetFCntDown(old(State()), id, fcnt)
    {
      if id !in sessions {
        return Err(NOT_FOUND);
      }
      sessions := sessions[id := sessions[id].(fcntDown := fcnt)];
      r := Ok(());
    }
  }

  // Encryption at rest is transparent to the session logic

  /** The stored value opens to `plain` under `aad`, and fails under any other data. */
  ghost predicate BoundTo(c: Cipher, stored: string, plain: string, aad: string) {
    forall other: string :: Decrypt(c, stored, other) == if other == aad then Ok(plain) else Err("decrypting")
  }

  lemma EncryptBinds(c: Cipher, nonce: GcmNonce, plain: string, aad: string)
    requires c.Enabled? && c.aead.Lawful()
    ensures BoundTo(c, Encrypt(c, nonce, plain, aad), plain, aad)
  {
    forall other: string
      ensures Decrypt(c, Encrypt(c, nonce, plain, aad), other) == if other == aad then Ok(plain) else Err("decrypting")
    {
      OpensOnlyInPlace(c, nonce, plain, aad, other);
    }
  }

  /** With encryption disabled a value that looks encrypted is refused when it is read. */
  predicate ReadsBack(c: Cipher, plain: string) {
    c.Enabled? || !HasPrefix(plain)
  }

  /** What the cipher keeps for `plain`: a ciphertext bound to its place, or the value itself. */
  ghost predicate KeptAs(c: Cipher, stored: string, plain: string, aad: string) {
    if c.Enabled? then BoundTo(c, stored, plain, aad) else stored == plain
  }

  lemma EncryptKeeps(c: Cipher, nonce: GcmNonce, plain: string, aad: string)
    requires c.Enabled? ==> c.aead.Lawful()
    ensures KeptAs(c, Encrypt(c, nonce, plain, aad), plain, aad)
  {
    if c.Enabled? {
      EncryptBinds(c, nonce, plain, aad);
    }
  }

  lemma KeptReadsBack(c: Cipher, stored: string, plain: string, aad: string)
    requires KeptAs(c, stored, plain, aad)
    ensures Decrypt(c, stored, aad).Ok? <==> ReadsBack(c, plain)
    ensures ReadsBack(c, plain) ==> Decrypt(c, stored, aad) == Ok(plain)
  {
  }

  /** Saving a join is seen as AfterJoin by the next reader of the row, exactly when both keys are read back; with
      encryption configured they always are. */
  lemma SaveJoinActsOnSession(c: Cipher, db: Db, id: nat, js: JoinState, n1: GcmNonce, n2: GcmNonce)
    requires c.Enabled? ==> c.aead.Lawful()
    requires GetSession(c, db, id).Ok?
    ensures GetSession(c, SaveJoinResult(c, db, id, js, n1, n2).0, id) == Ok(AfterJoin(GetSession(c, db, id).value, js))
      <==> ReadsBack(c, js.nwkSKey) && ReadsBack(c, js.appSKey)
  {
    var nwk, app := SessionAad(id, NWK_SKEY), SessionAad(id, APP_SKEY);
    EncryptKeeps(c, n1, js.nwkSKey, nwk);
    EncryptKeeps(c, n2, js.appSKey, app);
    KeptReadsBack(c, Encrypt(c, n1, js.nwkSKey, nwk), js.nwkSKey, nwk);
    KeptReadsBack(c, Encrypt(c, n2, js.appSKey, app), js.appSKey, app);
  }

  lemma HexReadsBack(c: Cipher, b: Bytes)
    ensures ReadsBack(c, Hex.Encode(b))
  {
    if b != [] {
      assert Hex.Encode(b)[0] == Hex.Digit(b[0] / 16) != PREFIX[0];
    }
  }

  /** So what a join saves is read back under either cipher: its keys are stored as hex. */
  lemma SavedJoinIsReadBack(
    c: Cipher, db: Db, id: nat, r: JoinFrames.JoinResult, n1: GcmNonce, n2: GcmNonce)
    requires c.Enabled? ==> c.aead.Lawful()
    requires GetSession(c, db, id).Ok?
    ensures var js := JoinStateOf(r);
      GetSession(c, SaveJoinResult(c, db, id, js, n1, n2).0, id) == Ok(AfterJoin(GetSession(c, db, id).value, js))
  {
    SaveJoinActsOnSession(c, db, id, JoinStateOf(r), n1, n2);
    HexReadsBack(c, r.keys.nwk);
    HexReadsBack(c, r.keys.app);
  }

  /** The counter statements are seen as AfterNonce, AfterTake and AfterDown, as long as the row stays readable. */
  lemma CountersActOnSession(c: Cipher, db: Db, id: nat, fcnt: nat)
    requires GetSession(c, db, id).Ok?
    ensures var s := GetSession(c, db, id).value;
      && NextDevNonce(db, id).1.Ok? == Readable(AfterNonce(s))
      && TakeFCntUp(db, id).1 == Ok(s.fcntUp)
      && (Readable(AfterNonce(s)) ==> GetSession(c, NextDevNonce(db, id).0, id) == Ok(AfterNonce(s)))
      && (Readable(AfterTake(s)) ==> GetSession(c, TakeFCntUp(db, id).0, id) == Ok(AfterTake(s)))
      && (Readable(AfterDown(s, fcnt)) ==> GetSession(c, SetFCntDown(db, id, fcnt).0, id) == Ok(AfterDown(s, fcnt)))
  {
  }

  // Binding, over every run of the two tables

  datatype Op =
    | Create(tag: NewTag, n: GcmNonce)
    | Delete(id: nat)
    | SaveJoin(id: nat, js: JoinState, n1: GcmNonce, n2: GcmNonce)
    | TakeNonce(id: nat)
    | TakeCounter(id: nat)
    | StoreFCntDown(id: nat, fcnt: nat)

  /** A protected column of one row. */
  datatype Cell = AppKeyOf(id: nat) | NwkSKeyOf(id: nat) | AppSKeyOf(id: nat)

  function Exec(c: Cipher, db: Db, op: Op): Db {
    match op
    case Create(t, n) => CreateTag(c, db, t, n).0
    case Delete(id) => DeleteTag(db, id).0
    case SaveJoin(id, js, n1, n2) => SaveJoinResult(c, db, id, js, n1, n2).0
    case TakeNonce(id) => NextDevNonce(db, id).0
    case TakeCounter(id) => TakeFCntUp(db, id).0
    case StoreFCntDown(id, fcnt) => SetFCntDown(db, id, fcnt).0
  }

  /** The plaintext last saved in each protected column that now holds one. */
  function Written(c: Cipher, db: Db, saved: map<Cell, string>, op: Op): map<Cell, string> {
    match op
    case Create(t, n) =>
      (match CreateTag(c, db, t, n).1
       case Ok(id) => saved[AppKeyOf(id) := t.appKey]
       case Err(_) => saved)
    case Delete(id) => saved - {AppKeyOf(id), NwkSKeyOf(id), AppSKeyOf(id)}
    case SaveJoin(id, js, _, _) =>
      if id in db.sessions then saved[NwkSKeyOf(id) := js.nwkSKey][AppSKeyOf(id) := js.appSKey] else saved
    case _ => saved
  }

  function Run(c: Cipher, ops: seq<Op>): (Db, map<Cell, string>) {
    if ops == [] then (EMPTY_DB, map[])
    else
      var (db, saved) := Run(c, ops[..|ops| - 1]);
      (Exec(c, db, ops[|ops| - 1]), Written(c, db, saved, ops[|ops| - 1]))
  }

  function Stored(db: Db, cell: Cell): Option<string> {
    match cell
    case AppKeyOf(id) => if id in db.tags then Some(db.tags[id].appKey) else None
    case NwkSKeyOf(id) => if id in db.sessions then db.sessions[id].nwkSKey else None
    case AppSKeyOf(id) => if id in db.sessions then db.sessions[id].appSKey else None
  }

  predicate RowExists(db: Db, cell: Cell) {
    cell.id in db.tags
  }

  function Aad(db: Db, cell: Cell): string
    requires RowExists(db, cell)
  {
    match cell
    case AppKeyOf(id) => TagAad(db.tags[id].devEui, APP_KEY)
    case NwkSKeyOf(id) => SessionAad(id, NWK_SKEY)
    case AppSKeyOf(id) => SessionAad(id, APP_SKEY)
  }

  ghost predicate WellKept(db: Db) {
    && db.tags.Keys == db.sessions.Keys
    && (forall id <- db.tags :: id < db.nextId)
    && (forall i <- db.tags, j <- db.tags :: db.tags[i].devEui == db.tags[j].devEui ==> i == j)
  }

  ghost predicate CellGood(c: Cipher, db: Db, saved: map<Cell, string>, cell: Cell) {
    && (cell in saved <==> Stored(db, cell).Some?)
    && (cell in saved ==> RowExists(db, cell) && KeptAs(c, Stored(db, cell).value, saved[cell], Aad(db, cell)))
  }

  lemma AadInjective(db: Db, a: Cell, b: Cell)
    requires WellKept(db) && RowExists(db, a) && RowExists(db, b)
    ensures Aad(db, a) == Aad(db, b) <==> a == b
  {
    match (a, b)
    case (AppKeyOf(i), AppKeyOf(j)) => TagAadInjective(db.tags[i].devEui, db.tags[j].devEui, APP_KEY);
    case (AppKeyOf(i), _) =>
      TablesDisjoint(b.id, if b.NwkSKeyOf? then NWK_SKEY else APP_SKEY, db.tags[i].devEui, APP_KEY);
    case (_, AppKeyOf(j)) =>
      TablesDisjoint(a.id, if a.NwkSKeyOf? then NWK_SKEY else APP_SKEY, db.tags[j].devEui, APP_KEY);
    case _ =>
      assert NWK_SKEY[0] != APP_SKEY[0];
      SessionAadInjective(a.id, if a.NwkSKeyOf? then NWK_SKEY else APP_SKEY,
                          b.id,
          if b.NwkSKeyOf? then NWK_SKEY else APP_SKEY);
  }

  lemma CreateKeepsCell(c: Cipher, db: Db, saved: map<Cell, string>, t: NewTag, n: GcmNonce, cell: Cell)
    requires (c.Enabled? ==> c.aead.Lawful()) && WellKept(db) && CellGood(c, db, saved, cell)
    ensures var op := Op.Create(t, n); CellGood(c, Exec(c, db, op), Written(c, db, saved, op), cell)
  {
    EncryptKeeps(c, n, t.appKey, TagAad(t.devEui, APP_KEY));
  }

  lemma SaveKeepsCell(
    c: Cipher, db: Db, saved: map<Cell, string>, id: nat, js: JoinState, n1: GcmNonce, n2: GcmNonce, cell: Cell)
    requires (c.Enabled? ==> c.aead.Lawful()) && WellKept(db) && CellGood(c, db, saved, cell)
    ensures var op := Op.SaveJoin(id, js, n1, n2); CellGood(c, Exec(c, db, op), Written(c, db, saved, op), cell)
  {
    EncryptKeeps(c, n1, js.nwkSKey, SessionAad(id, NWK_SKEY));
    EncryptKeeps(c, n2, js.appSKey, SessionAad(id, APP_SKEY));
  }

  lemma DeleteKeepsCell(c: Cipher, db: Db, saved: map<Cell, string>, id: nat, cell: Cell)
    requires WellKept(db) && CellGood(c, db, saved, cell)
    ensures CellGood(c, Exec(c, db, Op.Delete(id)), Written(c, db, saved, Op.Delete(id)), cell)
  {
  }

  lemma CountersKeepCell(c: Cipher, db: Db, saved: map<Cell, string>, op: Op, cell: Cell)
    requires WellKept(db) && CellGood(c, db, saved, cell) && (op.TakeNonce? || op.TakeCounter? || op.StoreFCntDown?)
    ensures CellGood(c, Exec(c, db, op), Written(c, db, saved, op), cell)
  {
    assert Stored(Exec(c, db, op), cell) == Stored(db, cell);
  }

  lemma ExecKeepsCell(c: Cipher, db: Db, saved: map<Cell, string>, op: Op, cell: Cell)
    requires (c.Enabled? ==> c.aead.Lawful()) && WellKept(db) && CellGood(c, db, saved, cell)
    ensures CellGood(c, Exec(c, db, op), Written(c, db, saved, op), cell)
  {
    if op.Create? {
      CreateKeepsCell(c, db, saved, op.tag, op.n, cell);
    } else if op.SaveJoin? {
      SaveKeepsCell(c, db, saved, op.id, op.js, op.n1, op.n2, cell);
    } else if op.Delete? {
      DeleteKeepsCell(c, db, saved, op.id, cell);
    } else {
      CountersKeepCell(c, db, saved, op, cell);
    }
  }

  lemma ExecKeepsTables(c: Cipher, db: Db, op: Op)
    requires WellKept(db)
    ensures WellKept(Exec(c, db, op))
  {
  }

  lemma {:induction false} RunsAreGood(c: Cipher, ops: seq<Op>)
    requires c.Enabled? ==> c.aead.Lawful()
    ensures WellKept(Run(c, ops).0)
    ensures forall cell :: CellGood(c, Run(c, ops).0, Run(c, ops).1, cell)
  {
    if ops != [] {
      RunsAreGood(c, ops[..|ops| - 1]);
      var (db, saved) := Run(c, ops[..|ops| - 1]);
      ExecKeepsTables(c, db, ops[|ops| - 1]);
      forall cell ensures CellGood(c, Run(c, ops).0, Run(c, ops).1, cell) {
        ExecKeepsCell(c, db, saved, ops[|ops| - 1], cell);
      }
    }
  }

  /** After every run of creations, joins, deletions and counter updates, each protected column that holds a value
      opens to the value last saved in it, and that value opens in no other column of any row. */
  lemma ColumnsAreBound(c: Cipher, ops: seq<Op>, cell: Cell, other: Cell)
    requires c.Enabled? && c.aead.Lawful()
    requires RowExists(Run(c, ops).0, other)
    ensures var (db, saved) := Run(c, ops);
      && (cell in saved <==> Stored(db, cell).Some?)
      && (cell in saved ==>
            Decrypt(c, Stored(db, cell).value, Aad(db, other)) ==
              if other == cell then Ok(saved[cell]) else Err("decrypting"))
  {
    RunsAreGood(c, ops);
    var (db, saved) := Run(c, ops);
    assert CellGood(c, db, saved, cell);
    if cell in saved {
      AadInjective(db, other, cell);
    }
  }

  /** What is read from a column: what was saved last, or nothing before the first join. */
  function Last(saved: map<Cell, string>, cell: Cell): string {
    if cell in saved then saved[cell] else ""
  }

  lemma ColumnReadsBack(c: Cipher, db: Db, saved: map<Cell, string>, cell: Cell)
    requires RowExists(db, cell) && CellGood(c, db, saved, cell)
    ensures var r := OpenColumn(c, Stored(db, cell), Aad(db, cell));
      (r.Ok? <==> ReadsBack(c, Last(saved, cell))) && (r.Ok? ==> r.value == Last(saved, cell))
  {
    if cell in saved {
      KeptReadsBack(c, Stored(db, cell).value, saved[cell], Aad(db, cell));
    }
  }

  /** After every such run, under either cipher, the repository returns the AppKey and the session keys last saved,
      or fails; a tag fails exactly when its AppKey is not read back, a session when a key of it is not or a counter
      has outgrown its field. */
  lemma ReadsBackWhatWasSaved(c: Cipher, ops: seq<Op>, id: nat)
    requires (c.Enabled? ==> c.aead.Lawful()) && id in Run(c, ops).0.tags
    ensures var (db, saved) := Run(c, ops);
            var appKey := Last(saved, AppKeyOf(id));
            var nwkSKey, appSKey := Last(saved, NwkSKeyOf(id)), Last(saved, AppSKeyOf(id));
      && AppKeyOf(id) in saved
      && (GetTag(c, db, id).Ok? <==> ReadsBack(c, appKey))
      && (GetTag(c, db, id).Ok? ==> GetTag(c, db, id).value.appKey == appKey)
      && (GetSession(c, db, id).Ok? <==>
            Readable(GetCounters(db, id)) && ReadsBack(c, nwkSKey) && ReadsBack(c, appSKey))
      && (GetSession(c, db, id).Ok? ==>
            GetSession(c, db, id).value.nwkSKey == nwkSKey && GetSession(c, db, id).value.appSKey == appSKey)
  {
    RunsAreGood(c, ops);
    var (db, saved) := Run(c, ops);
    ColumnReadsBack(c, db, saved, AppKeyOf(id));
    ColumnReadsBack(c, db, saved, NwkSKeyOf(id));
    ColumnReadsBack(c, db, saved, AppSKeyOf(id));
    assert CellGood(c, db, saved, AppKeyOf(id));
  }

  /** The counters of a row, whatever its columns open to. */
  function GetCounters(db: Db, id: nat): Session {
    if id !in db.sessions then NEW_SESSION
    else NEW_SESSION.(devNonce := db.sessions[id].devNonce, fcntUp := db.sessions[id].fcntUp,
                      fcntDown := db.sessions[id].fcntDown)
  }
}
