/** Registering handlers (durable/routine.go, worker.go): what recovery keys a worker can hold. */
module Registry {
  import opened Keys
  import opened Wrappers
  import opened Durable

  /** A registered handler, and the recovery key in its options. */
  datatype HandlerEntry = HandlerEntry(handler: nat, recoveryKey: string)

  /** Registration of a handler of one of the three families, or of a recovery handler on the builder that
      registering `key` returned. Options are those that a caller can build: they hold no recovery key. */
  datatype Registration =
    | Handler(kind: string, resultKind: string, h: nat)
    | Send(inputKind: string, msgKind: string, resultKind: string, h: nat)
    | Call(inputKind: string, reqKind: string, respKind: string, resultKind: string, h: nat)
    | WithRecovery(key: string, h: nat)

  function KeyOf(r: Registration): string {
    match r
    case Handler(a, b, _) => HandlerKey(a, b)
    case Send(a, b, c, _) => SendKey(a, b, c)
    case Call(a, b, c, d, _) => CallKey(a, b, c, d)
    case WithRecovery(key, _) => key
  }

  function Recovered(m: map<string, HandlerEntry>, key: string, h: nat): map<string, HandlerEntry>
    requires key in m
  {
    m[ErrorKey(key) := HandlerEntry(h, "")][key := HandlerEntry(m[key].handler, ErrorKey(key))]
  }

  /** None: registering the same key twice panics, and a recovery handler needs a builder, which only
      registering a primary key returns. */
  ghost function Registered(m: map<string, HandlerEntry>, r: Registration): Option<map<string, HandlerEntry>> {
    var key := KeyOf(r);
    if r.WithRecovery? then if key in m && Keys.Primary(key) then Some(Recovered(m, key, r.h)) else None
    else if key in m then None
    else Some(m[key := HandlerEntry(r.h, "")])
  }

  ghost function RegisteredAll(rs: seq<Registration>): Option<map<string, HandlerEntry>> {
    if rs == [] then Some(map[])
    else
      var before := RegisteredAll(rs[..|rs| - 1]);
      if before.Some? then Registered(before.value, rs[|rs| - 1]) else None
  }

  class Worker {
    var handlers: map<string, HandlerEntry>

    constructor ()
      ensures handlers == map[]
    {
      handlers := map[];
    }

    /** False: panics. */
    method AddEntry(r: Registration) returns (ok: bool)
      requires !r.WithRecovery?
      modifies this
      ensures ok <==> Registered(old(handlers), r).Some?
      ensures handlers == if ok then Registered(old(handlers), r).value else old(handlers)
    {
      var key := KeyOf(r);
      if key in handlers { return false; }
      handlers := handlers[key := HandlerEntry(r.h, "")];
      return true;
    }

    method RegisterRecoveryHandler(primaryKey: string, h: nat)
      requires primaryKey in handlers && Keys.Primary(primaryKey)
      modifies this
      ensures Registered(old(handlers), WithRecovery(primaryKey, h)) == Some(handlers)
      ensures handlers.Keys == old(handlers).Keys + {"error:" + primaryKey}
      ensures handlers["error:" + primaryKey] == HandlerEntry(h, "")
      ensures handlers[primaryKey] == HandlerEntry(old(handlers)[primaryKey].handler, "error:" + primaryKey)
      ensures forall k :: k in old(handlers) && k != primaryKey && k != "error:" + primaryKey ==>
        handlers[k] == old(handlers)[k]
    {
      var errorKey := ErrorKey(primaryKey);
      ErrorNotPrimary(primaryKey);
      handlers := handlers[errorKey := HandlerEntry(h, "")];
      var entry := handlers[primaryKey];
      handlers := handlers[primaryKey := HandlerEntry(entry.handler, errorKey)];
    }
  }

  /** Recovery keys are the error keys of their own handlers, and registered; error entries have none. */
  ghost predicate RegistryInv(m: map<string, HandlerEntry>) {
    && (forall k :: k in m && m[k].recoveryKey != "" ==>
         Keys.Primary(k) && m[k].recoveryKey == ErrorKey(k) && ErrorKey(k) in m)
    && (forall k :: k in m ==> Keys.Primary(k) || exists p :: p in m && Keys.Primary(p) && k == ErrorKey(p))
  }

  /** After any sequence of registrations. */
  lemma {:induction false} RegistriesKeep(rs: seq<Registration>)
    requires RegisteredAll(rs).Some?
    ensures RegistryInv(RegisteredAll(rs).value)
  {
    if rs != [] {
      var m, r := RegisteredAll(rs[..|rs| - 1]).value, rs[|rs| - 1];
      RegistriesKeep(rs[..|rs| - 1]);
      var m' := Registered(m, r).value;
      forall k | k in m' ensures Keys.Primary(k) || exists p :: p in m' && Keys.Primary(p) && k == ErrorKey(p) {
        if k in m && !Keys.Primary(k) {
          var p :| p in m && Keys.Primary(p) && k == ErrorKey(p);
          assert p in m';
        }
      }
      if r.WithRecovery? {
        ErrorNotPrimary(r.key);
      }
    }
  }

  // ----- What a sequence of registrations leaves -----

  /** A registration that makes an entry under this primary key. */
  ghost predicate Makes(r: Registration, key: string) {
    match r
    case Handler(a, b, _) => key == HandlerKey(a, b)
    case Send(a, b, c, _) => key == SendKey(a, b, c)
    case Call(a, b, c, d, _) => key == CallKey(a, b, c, d)
    case WithRecovery(_, _) => false
  }

  ghost predicate Recovers(r: Registration, key: string) {
    r.WithRecovery? && r.key == key
  }

  /** The last recovery registration for a key. */
  ghost predicate LastRecovery(rs: seq<Registration>, i: int, key: string) {
    0 <= i < |rs| && Recovers(rs[i], key) && forall j :: i < j < |rs| ==> !Recovers(rs[j], key)
  }

  ghost predicate Made(rs: seq<Registration>, key: string) {
    exists i :: 0 <= i < |rs| && Makes(rs[i], key)
  }

  ghost predicate Recovering(rs: seq<Registration>, key: string) {
    exists i :: 0 <= i < |rs| && Recovers(rs[i], key)
  }

  /** No key is made twice, and every recovery handler is for a key made before. */
  ghost predicate WellOrdered(rs: seq<Registration>) {
    forall j {:trigger rs[j]} :: 0 <= j < |rs| ==> InTurn(rs[..j], rs[j])
  }

  /** A registration that succeeds after these. */
  ghost predicate InTurn(before: seq<Registration>, r: Registration) {
    if r.WithRecovery? then Made(before, r.key) else forall key :: Makes(r, key) ==> !Made(before, key)
  }

  /** Each primary key holds the handler registered under it, and names a recovery handler if it was given one. */
  ghost predicate HoldsMade(m: map<string, HandlerEntry>, rs: seq<Registration>) {
    forall i, key :: 0 <= i < |rs| && Makes(rs[i], key) ==>
      key in m && m[key] == HandlerEntry(rs[i].h, if Recovering(rs, key) then ErrorKey(key) else "")
  }

  /** The error key of a primary key holds the recovery handler given to it last. */
  ghost predicate HoldsRecovery(m: map<string, HandlerEntry>, rs: seq<Registration>) {
    forall i, key :: LastRecovery(rs, i, key) ==> ErrorKey(key) in m && m[ErrorKey(key)] == HandlerEntry(rs[i].h, "")
  }

  /** Nothing else is in the registry. */
  ghost predicate HoldsOnly(m: map<string, HandlerEntry>, rs: seq<Registration>) {
    forall key :: key in m ==>
      Made(rs, key) || exists i :: 0 <= i < |rs| && rs[i].WithRecovery? && key == ErrorKey(rs[i].key)
  }

  ghost predicate Holds(m: map<string, HandlerEntry>, rs: seq<Registration>) {
    HoldsMade(m, rs) && HoldsRecovery(m, rs) && HoldsOnly(m, rs)
  }

  lemma MakesPrimary(r: Registration, key: string)
    requires Makes(r, key)
    ensures Keys.Primary(key) && key == KeyOf(r) && !r.WithRecovery?
  {}

  lemma MakesOwn(r: Registration)
    requires !r.WithRecovery?
    ensures Makes(r, KeyOf(r)) && Keys.Primary(KeyOf(r))
  {}

  lemma ErrorKeyUnique(a: string, b: string)
    requires ErrorKey(a) == ErrorKey(b)
    ensures a == b
  {
    assert ErrorKey(a)[6..] == a && ErrorKey(b)[6..] == b;
  }

  /** A primary key is in the registry exactly if it was made. */
  lemma PrimaryIsMade(m: map<string, HandlerEntry>, rs: seq<Registration>, key: string)
    requires Holds(m, rs) && Keys.Primary(key)
    ensures key in m <==> Made(rs, key)
  {
    if key in m && !Made(rs, key) {
      var i :| 0 <= i < |rs| && rs[i].WithRecovery? && key == ErrorKey(rs[i].key);
      ErrorNotPrimary(rs[i].key);
      assert false;
    }
  }

  lemma OrderedSnoc(init: seq<Registration>, r: Registration)
    ensures WellOrdered(init + [r]) <==> (WellOrdered(init) && InTurn(init, r))
  {
    var rs, n := init + [r], |init|;
    assert rs[..n] == init && rs[n] == r;
    if WellOrdered(rs) {
      forall j {:trigger init[j]} | 0 <= j < n ensures InTurn(init[..j], init[j]) {
        assert rs[..j] == init[..j] && rs[j] == init[j];
      }
    }
    if WellOrdered(init) && InTurn(init, r) {
      forall j {:trigger rs[j]} | 0 <= j < |rs| ensures InTurn(rs[..j], rs[j]) {
        assert j < n ==> rs[..j] == init[..j] && rs[j] == init[j];
      }
    }
  }

  lemma RecoveringSnoc(init: seq<Registration>, r: Registration, key: string)
    ensures Recovering(init + [r], key) <==> Recovering(init, key) || Recovers(r, key)
    ensures Made(init + [r], key) <==> Made(init, key) || Makes(r, key)
  {
    var rs := init + [r];
    assert rs[|init|] == r && forall j :: 0 <= j < |init| ==> rs[j] == init[j];
  }

  /** Only made keys are given recovery handlers. */
  lemma RecoveringMade(rs: seq<Registration>, key: string)
    requires WellOrdered(rs) && Recovering(rs, key)
    ensures Made(rs, key)
  {
    var i :| 0 <= i < |rs| && Recovers(rs[i], key);
    var k :| 0 <= k < |rs[..i]| && Makes(rs[..i][k], key);
    assert Makes(rs[k], key);
  }

  lemma LastRecoverySnoc(init: seq<Registration>, r: Registration, i: int, key: string)
    requires LastRecovery(init + [r], i, key)
    ensures if i == |init| then Recovers(r, key) else !Recovers(r, key) && LastRecovery(init, i, key)
  {
    var rs := init + [r];
    assert rs[|init|] == r && forall j :: 0 <= j < |init| ==> rs[j] == init[j];
  }

  /** A new entry. */
  lemma EntryHoldsMade(m: map<string, HandlerEntry>, init: seq<Registration>, r: Registration)
    requires HoldsMade(m, init) && WellOrdered(init) && !r.WithRecovery? && InTurn(init, r)
    ensures HoldsMade(m[KeyOf(r) := HandlerEntry(r.h, "")], init + [r])
  {
    var rs, m' := init + [r], m[KeyOf(r) := HandlerEntry(r.h, "")];
    MakesOwn(r);
    forall i, key | 0 <= i < |rs| && Makes(rs[i], key)
      ensures key in m' && m'[key] == HandlerEntry(rs[i].h, if Recovering(rs, key) then ErrorKey(key) else "")
    {
      RecoveringSnoc(init, r, key);
      if i == |init| {
        MakesPrimary(r, key);
        if Recovering(init, key) {
          RecoveringMade(init, key);
        }
      } else {
        assert rs[i] == init[i] && Made(init, key);
      }
    }
  }

  lemma EntryHoldsRecovery(m: map<string, HandlerEntry>, init: seq<Registration>, r: Registration)
    requires HoldsRecovery(m, init) && !r.WithRecovery?
    ensures HoldsRecovery(m[KeyOf(r) := HandlerEntry(r.h, "")], init + [r])
  {
    var rs, m' := init + [r], m[KeyOf(r) := HandlerEntry(r.h, "")];
    MakesOwn(r);
    forall i, key | LastRecovery(rs, i, key)
      ensures ErrorKey(key) in m' && m'[ErrorKey(key)] == HandlerEntry(rs[i].h, "")
    {
      LastRecoverySnoc(init, r, i, key);
      ErrorNotPrimary(key);
    }
  }

  lemma EntryHoldsOnly(m: map<string, HandlerEntry>, init: seq<Registration>, r: Registration)
    requires HoldsOnly(m, init) && !r.WithRecovery?
    ensures HoldsOnly(m[KeyOf(r) := HandlerEntry(r.h, "")], init + [r])
  {
    var rs, m' := init + [r], m[KeyOf(r) := HandlerEntry(r.h, "")];
    MakesOwn(r);
    forall key | key in m'
      ensures Made(rs, key) || exists i :: 0 <= i < |rs| && rs[i].WithRecovery? && key == ErrorKey(rs[i].key)
    {
      RecoveringSnoc(init, r, key);
      if key in m && !Made(init, key) {
        var i :| 0 <= i < |init| && init[i].WithRecovery? && key == ErrorKey(init[i].key);
        assert rs[i] == init[i];
      }
    }
  }

  /** A recovery handler for a made key. */
  lemma RecoveryHoldsMade(m: map<string, HandlerEntry>, init: seq<Registration>, r: Registration)
    requires HoldsMade(m, init) && r.WithRecovery? && r.key in m
    ensures HoldsMade(Recovered(m, r.key, r.h), init + [r])
  {
    var rs, m' := init + [r], Recovered(m, r.key, r.h);
    forall i, key | 0 <= i < |rs| && Makes(rs[i], key)
      ensures key in m' && m'[key] == HandlerEntry(rs[i].h, if Recovering(rs, key) then ErrorKey(key) else "")
    {
      assert i < |init| && rs[i] == init[i];
      RecoveringSnoc(init, r, key);
      PrimaryNotError(init, key, r.key);
    }
  }

  lemma RecoveryHoldsRecovery(m: map<string, HandlerEntry>, init: seq<Registration>, r: Registration)
    requires HoldsRecovery(m, init) && r.WithRecovery? && r.key in m && Made(init, r.key)
    ensures HoldsRecovery(Recovered(m, r.key, r.h), init + [r])
  {
    var rs, m' := init + [r], Recovered(m, r.key, r.h);
    forall i, key | LastRecovery(rs, i, key)
      ensures ErrorKey(key) in m' && m'[ErrorKey(key)] == HandlerEntry(rs[i].h, "")
    {
      LastRecoverySnoc(init, r, i, key);
      PrimaryNotError(init, r.key, key);
      if i < |init| && ErrorKey(key) == ErrorKey(r.key) {
        ErrorKeyUnique(key, r.key);
      }
    }
  }

  lemma PrimaryNotError(rs: seq<Registration>, key: string, other: string)
    requires Made(rs, key)
    ensures key != ErrorKey(other)
  {
    var i :| 0 <= i < |rs| && Makes(rs[i], key);
    MakesPrimary(rs[i], key);
    ErrorNotPrimary(other);
  }

  lemma RecoveryHoldsOnly(m: map<string, HandlerEntry>, init: seq<Registration>, r: Registration)
    requires HoldsOnly(m, init) && r.WithRecovery? && r.key in m
    ensures HoldsOnly(Recovered(m, r.key, r.h), init + [r])
  {
    var rs, m' := init + [r], Recovered(m, r.key, r.h);
    assert rs[|init|] == r;
    forall key | key in m'
      ensures Made(rs, key) || exists i :: 0 <= i < |rs| && rs[i].WithRecovery? && key == ErrorKey(rs[i].key)
    {
      RecoveringSnoc(init, r, key);
      if key in m && !Made(init, key) {
        var i :| 0 <= i < |init| && init[i].WithRecovery? && key == ErrorKey(init[i].key);
        assert rs[i] == init[i];
      }
    }
  }

  /** Registering succeeds exactly if no key is registered twice and every recovery handler is registered for a key
      registered before. Then each primary key holds the handler registered under it, with the error key as its
      recovery key exactly if it was given a recovery handler; the error key holds the last of those; and the registry
      holds nothing else. */
  lemma {:induction false} RegistryHolds(rs: seq<Registration>)
    ensures RegisteredAll(rs).Some? <==> WellOrdered(rs)
    ensures RegisteredAll(rs).Some? ==> Holds(RegisteredAll(rs).value, rs)
  {
    if rs != [] {
      var init, r := rs[..|rs| - 1], rs[|rs| - 1];
      assert init + [r] == rs;
      RegistryHolds(init);
      OrderedSnoc(init, r);
      if RegisteredAll(init).Some? {
        RegistryNext(RegisteredAll(init).value, init, r);
      }
    }
  }

  lemma OwnKeyOnly(init: seq<Registration>, r: Registration)
    requires !r.WithRecovery?
    ensures InTurn(init, r) <==> !Made(init, KeyOf(r))
  {
    MakesOwn(r);
    forall key | Makes(r, key) ensures key == KeyOf(r) {
      MakesPrimary(r, key);
    }
  }

  lemma RegistryNext(m: map<string, HandlerEntry>, init: seq<Registration>, r: Registration)
    requires Holds(m, init) && WellOrdered(init)
    ensures Registered(m, r).Some? <==> InTurn(init, r)
    ensures Registered(m, r).Some? ==> Holds(Registered(m, r).value, init + [r])
  {
    if r.WithRecovery? {
      if Made(init, r.key) {
        var i :| 0 <= i < |init| && Makes(init[i], r.key);
        MakesPrimary(init[i], r.key);
      }
      if Keys.Primary(r.key) {
        PrimaryIsMade(m, init, r.key);
      }
      if r.key in m && Made(init, r.key) {
        RecoveryHoldsMade(m, init, r);
        RecoveryHoldsRecovery(m, init, r);
        RecoveryHoldsOnly(m, init, r);
      }
    } else {
      MakesOwn(r);
      PrimaryIsMade(m, init, KeyOf(r));
      OwnKeyOnly(init, r);
      if InTurn(init, r) {
        EntryHoldsMade(m, init, r);
        EntryHoldsRecovery(m, init, r);
        EntryHoldsOnly(m, init, r);
      }
    }
  }

  /** The registry as the backends read it. */
  function RecoveryKeys(m: map<string, HandlerEntry>): Recovery {
    map k | k in m :: m[k].recoveryKey
  }

  /** A worker's registry names only recovery handlers that exist, so looking one up and checking that it is
      registered is the same; and a recovery handler has none itself, so at most one is run per failure. */
  lemma OneRecovery(rs: seq<Registration>, key: string)
    requires RegisteredAll(rs).Some? && key in RegisteredAll(rs).value
    ensures var reg := RecoveryKeys(RegisteredAll(rs).value);
      && RecoveryKey(reg, key) == reg[key]
      && (RecoveryKey(reg, key) != "" ==> RecoveryKey(reg, key) == ErrorKey(key))
      && RecoveryKey(reg, RecoveryKey(reg, key)) == ""
  {
    RegistriesKeep(rs);
    var m := RegisteredAll(rs).value;
    if m[key].recoveryKey != "" {
      ErrorNotPrimary(key);
    } else if "" in m && m[""].recoveryKey != "" {
      assert ErrorKey("") != "";
      EmptyNotPrimary();
    }
  }

  lemma EmptyNotPrimary()
    ensures !Keys.Primary("")
  {
    forall a, b ensures HandlerKey(a, b) != "" {
      assert |HandlerKey(a, b)| > 0;
    }
    forall a, b, c ensures SendKey(a, b, c) != "" {
      assert |SendKey(a, b, c)| > 0;
    }
    forall a, b, c, d ensures CallKey(a, b, c, d) != "" {
      assert |CallKey(a, b, c, d)| > 0;
    }
  }
}
