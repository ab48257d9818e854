/** The session row of internal/store/sessions.go as the simulator sees it, and what each statement does to it.
    Counters are SQLite integers: they grow without bound and are only narrowed when scanned. */
module Sessions {
  import opened ByteStrings
  import opened Crypto
  import opened Wrappers
  import DataFrames
  import Hex
  import JoinFrames
  import Wire

  datatype Session = Session(
    devAddr: string, nwkSKey: string, appSKey: string, fcntUp: nat, fcntDown: nat, devNonce: nat,
    rxDelay: nat, rx1DrOffset: nat, rx2Dr: nat, joined: bool)

  datatype JoinState = JoinState(
    devAddr: string, nwkSKey: string, appSKey: string, rxDelay: nat, rx1DrOffset: nat, rx2Dr: nat)

  /** The row inserted together with its tag. */
  const NEW_SESSION := Session("", "", "", 0, 0, 0, 0, 0, 0, false)

  /** Every counter fits the Go field it is scanned into; otherwise reading the row fails. */
  predicate Readable(s: Session) {
    s.devNonce < TWO_TO_16 && s.fcntUp < TWO_TO_32 && s.fcntDown < TWO_TO_32
  }

  function AfterNonce(s: Session): Session {
    s.(devNonce := s.devNonce + 1)
  }

  function AfterJoin(s: Session, js: JoinState): Session {
    Session(js.devAddr, js.nwkSKey, js.appSKey, 0, 0, s.devNonce, js.rxDelay, js.rx1DrOffset, js.rx2Dr, true)
  }

  function AfterTake(s: Session): Session {
    s.(fcntUp := s.fcntUp + 1)
  }

  function AfterDown(s: Session, fcnt: nat): Session {
    s.(fcntDown := fcnt)
  }

  // Between hex columns and byte arrays

  function ParseKey(s: string): Option<Key> {
    match Hex.Decode(s)
    case Some(b) => if |b| == 16 then Some(b) else None
    case None => None
  }

  function ParseDevAddr(s: string): Option<Wire.DevAddr> {
    match Hex.Decode(s)
    case Some(b) => if |b| == 4 then Some(b) else None
    case None => None
  }

  lemma ParseKeyRoundTrip(k: Key)
    ensures ParseKey(Hex.Encode(k)) == Some(k)
  {
    Hex.RoundTrip(k);
  }

  lemma ParseDevAddrRoundTrip(a: Wire.DevAddr)
    ensures ParseDevAddr(Hex.Encode(a)) == Some(a)
  {
    Hex.RoundTrip(a);
  }

  /** What a completed join persists. */
  function JoinStateOf(r: JoinFrames.JoinResult): JoinState {
    JoinState(Hex.Encode(r.accept.devAddr), Hex.Encode(r.keys.nwk), Hex.Encode(r.keys.app),
              r.accept.rxDelay, r.accept.rx1DrOffset, r.accept.rx2Dr)
  }

  /** Decoding a downlink with the keys of a session. */
  function ReadDownlink(p: Primitives, s: Session, frame: Bytes): Result<DataFrames.Downlink> {
    if !Readable(s) then Err("querying session")
    else if !s.joined then Err("device is not joined")
    else
      match (ParseDevAddr(s.devAddr), ParseKey(s.nwkSKey), ParseKey(s.appSKey))
      case (Some(_), Some(nwk), Some(app)) => DataFrames.DownlinkResult(p, nwk, app, frame)
      case _ => Err("parsing session")
  }

  predicate Stale(s: Session, fcnt: nat) {
    s.fcntDown > 0 && fcnt < s.fcntDown
  }

  /** A downlink is taken when it decodes and its counter has not been passed. */
  predicate Accepts(p: Primitives, s: Session, frame: Bytes) {
    var r := ReadDownlink(p, s, frame);
    r.Ok? && !Stale(s, r.value.fcnt)
  }

  /** The downlink that is handed on, if it is taken. */
  function Taken(p: Primitives, s: Session, frame: Bytes): Option<DataFrames.Downlink> {
    if Accepts(p, s, frame) then Some(ReadDownlink(p, s, frame).value) else None
  }
}
