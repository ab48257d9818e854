/** internal/tag/device.go: a simulated end-device over its persisted session. Each method is the sequence of
    store statements the source issues; DeviceRuns interleaves those statements. */
module Devices {
  import opened ByteStrings
  import opened Crypto
  import opened Secret
  import opened Sessions
  import opened Wrappers
  import DataFrames
  import JoinFrames
  import Store

  class Device {
    const p: Primitives
    const id: nat
    const prov: JoinFrames.Provisioning
    const fport: byte
    const generator: nat -> Option<Bytes>
    const store: Store.Repo

    constructor (p: Primitives, id: nat, prov: JoinFrames.Provisioning, fport: nat, generator: nat -> Option<Bytes>,
        store: Store.Repo)
      ensures this.p == p && this.id == id && this.prov == prov && this.fport == fport % 256
      ensures this.generator == generator && this.store == store
    {
      this.p, this.id, this.prov, this.fport := p, id, prov, fport % 256;
      this.generator, this.store := generator, store;
    }

    /** The nonce is persisted before the request exists, and the request carries it. */
    method BuildJoinRequest() returns (r: Result<(Bytes, nat)>)
      modifies store
      ensures store.State() == Store.NextDevNonce(old(store.State()), id).0
      ensures match Store.NextDevNonce(old(store.State()), id).1
              case Err(_) => r.Err?
              case Ok(nonce) => r == Ok((JoinFrames.JoinRequestFrame(p, prov, nonce), nonce))
    {
      var nonce := store.TakeNonce(id);
      if nonce.Err? {
        return Err("allocating dev nonce");
      }
      var frame := JoinFrames.BuildJoinRequest(p, prov, nonce.value);
      r := Ok((frame, nonce.value));
    }

    /** A rejected accept leaves the store as it was; a valid one replaces the session. */
    method CompleteJoin(devNonce: nat, accept: Bytes, n1: GcmNonce, n2: GcmNonce) returns (r: Result<()>)
      modifies store
      ensures match JoinFrames.AcceptResult(p, prov, devNonce, accept)
              case Err(_) => r.Err? && store.State() == old(store.State())
              case Ok(res) =>
                (store.State(), r)
                  == Store.SaveJoinResult(store.cipher, old(store.State()), id, JoinStateOf(res), n1, n2)
    {
      var res := JoinFrames.ParseJoinAccept(p, prov, devNonce, accept);
      if res.Err? {
        return Err(res.msg);
      }
      r := store.SaveJoin(id, JoinStateOf(res.value), n1, n2);
    }

    /** The counter is persisted before the frame exists; the frame uses the keys read before the counter was taken. */
    method BuildUplink(override: Option<Bytes>) returns (r: Result<(Bytes, nat)>)
      modifies store
      ensures var before := Store.GetSession(store.cipher, old(store.State()), id);
        r.Ok? <==> (&& before.Ok? && before.value.joined
                    && ParseDevAddr(before.value.devAddr).Some?
                    && ParseKey(before.value.nwkSKey).Some? && ParseKey(before.value.appSKey).Some?
                    && (override.Some? || generator(before.value.fcntUp).Some?))
      ensures r.Ok? ==>
        && var before := Store.GetSession(store.cipher, old(store.State()), id);
        && before.Ok? && before.value.joined
        && ParseDevAddr(before.value.devAddr).Some? && ParseKey(before.value.nwkSKey).Some?
        && ParseKey(before.value.appSKey).Some?
        && var data := if override.Some? then override else generator(before.value.fcntUp);
        && data.Some?
        && r.value == (DataFrames.UplinkFrame(p, DataFrames.UplinkParams(
             ParseDevAddr(before.value.devAddr).value, ParseKey(before.value.nwkSKey).value,
             ParseKey(before.value.appSKey).value,
             before.value.fcntUp, fport, data.value, false, false, false)), before.value.fcntUp)
      ensures var before := Store.GetSession(store.cipher, old(store.State()), id);
        if before.Ok? && before.value.joined then store.State() == Store.TakeFCntUp(old(store.State()), id).0
        else r.Err? && store.State() == old(store.State())
    {
      var sess := store.Get(id);
      if sess.Err? {
        return Err(sess.msg);
      }
      if !sess.value.joined {
        return Err("device is not joined");
      }
      var fcnt := store.TakeCounter(id);
      if fcnt.Err? {
        return Err("taking fcnt_up");
      }
      var data := override;
      if data.None? {
        data := generator(fcnt.value);
        if data.None? {
          return Err("generating payload");
        }
      }
      var devAddr, nwk, app :=
        ParseDevAddr(sess.value.devAddr), ParseKey(sess.value.nwkSKey), ParseKey(sess.value.appSKey);
      if devAddr.None? || nwk.None? || app.None? {
        return Err("parsing session");
      }
      var frame := DataFrames.BuildUplink(p, DataFrames.UplinkParams(
        devAddr.value, nwk.value, app.value, fcnt.value, fport, data.value, false, false, false));
      r := Ok((frame, fcnt.value));
    }

    /** Parses the session's keys and decodes the frame with them. */
    method Decode(sess: Session, frame: Bytes) returns (r: Result<DataFrames.Downlink>)
      requires Readable(sess)
      ensures r == ReadDownlink(p, sess, frame)
    {
      if !sess.joined {
        return Err("device is not joined");
      }
      var devAddr, nwk, app := ParseDevAddr(sess.devAddr), ParseKey(sess.nwkSKey), ParseKey(sess.appSKey);
      if devAddr.None? || nwk.None? || app.None? {
        return Err("parsing session");
      }
      r := DataFrames.ParseDownlink(p, nwk.value, app.value, frame);
    }

    /** A downlink that is taken is returned and its counter stored; any other leaves the store as it was. */
    method HandleDownlink(frame: Bytes) returns (r: Result<DataFrames.Downlink>)
      modifies store
      ensures var before := Store.GetSession(store.cipher, old(store.State()), id);
        if before.Ok? && Accepts(p, before.value, frame) then
          && r == ReadDownlink(p, before.value, frame)
          && store.State() == Store.SetFCntDown(old(store.State()), id, r.value.fcnt).0
        else r.Err? && store.State() == old(store.State())
    {
      var sess := store.Get(id);
      if sess.Err? {
        return Err(sess.msg);
      }
      var dl := Decode(sess.value, frame);
      if dl.Err? {
        return dl;
      }
      if sess.value.fcntDown > 0 && dl.value.fcnt < sess.value.fcntDown {
        return Err("stale downlink FCnt");
      }
      var _ := store.StoreFCntDown(id, dl.value.fcnt);
      r := dl;
    }
  }
}
