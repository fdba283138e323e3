/** The runtime's table of instances, operation by operation
    (bridge/src/clawbot_bridge/runtime.py, class BridgeRuntime).

    trace records, per instance, the events its operations amount to. Valid says that the
    tables hold exactly the state those events lead to, so what is proved of all event
    histories holds of the tables. */
module BridgeInstances {
  import opened Basics
  import opened BridgeRuntime
  import opened BridgeContext

  /** An instance id; distinct ids have distinct session files. */
  datatype Name = Name(text: string)

  /** What the gateway makes of a forwarded message; it takes none without an id. */
  function Answers(msg: string, took: bool, ok: bool): seq<Event> {
    (if took && msg != "" then [Accept] else []) + [Forwarded(ok)]
  }

  class Runtime {
    /** The session files. */
    var store: map<Name, Stored>
    /** The instances in memory. */
    var instances: map<Name, Memory>
    ghost var trace: map<Name, seq<Event>>

    constructor ()
      ensures Valid() && store == map[] && instances == map[]
      ensures forall id :: Trace(id) == []
    {
      store, instances, trace := map[], map[], map[];
    }

    ghost function Trace(id: Name): seq<Event>
      reads this
    {
      if id in trace then trace[id] else []
    }

    /** id's tables are where its events lead. */
    ghost predicate Follows(id: Name)
      reads this
    {
      && Legal(Trace(id)) && Named(Trace(id))
      && Run(Trace(id)).disk == Lookup(store, id)
      && Run(Trace(id)).mem == Lookup(instances, id)
    }

    /** Between operations no delivery is open. */
    ghost predicate At(id: Name)
      reads this
    {
      Follows(id) && Run(Trace(id)).flight == None
    }

    ghost predicate Valid()
      reads this
    {
      forall id :: At(id)
    }

    /** At any moment, a delivery may be open. */
    ghost predicate Loose()
      reads this
    {
      forall id :: Follows(id)
    }

    /** Nothing but id's own entries changed. */
    twostate predicate OnlyAt(id: Name)
      reads this
    {
      forall k :: k != id ==>
        && Lookup(store, k) == old(Lookup(store, k)) && Lookup(instances, k) == old(Lookup(instances, k))
        && Trace(k) == old(Trace(k))
    }

    twostate lemma StillValid(id: Name)
      requires old(Valid()) && OnlyAt(id) && At(id)
      ensures Valid()
    {
      forall k ensures At(k) {
        assert old(At(k));
      }
    }

    twostate lemma StillLoose(id: Name)
      requires old(Loose()) && OnlyAt(id) && Follows(id)
      ensures Loose()
    {
      forall k ensures Follows(k) {
        assert old(Follows(k));
      }
    }

    /** What start makes of id's tables: an instance that is up stays as it is, a stored session
        comes back whole and desired, and only without one a login begins. */
    twostate predicate StartedAs(id: Name, loginUp: bool, wrote: bool, status: Option<Status>)
      reads this
    {
      var before, memory, file := old(Lookup(instances, id)), Lookup(instances, id), old(Lookup(store, id));
      if before.Some? && before.value.status in {PendingLogin, Online} then
        memory == before && Lookup(store, id) == file && status == Some(before.value.status)
      else if file.Some? then
        && memory == Some(Memory(Online, Some(file.value.cred), file.value.account, file.value.tokens, true))
        && Lookup(store, id) == Some(if wrote then file.value.(desired := true) else file.value)
        && status == if wrote then Some(Online) else None
      else
        && memory == (if loginUp then Some(Memory(PendingLogin, None, "", map[], true)) else before)
        && Lookup(store, id) == None && status == if loginUp then Some(PendingLogin) else None
    }

    method SaveState(id: Name, wrote: bool) returns (raised: bool)
      requires id in instances
      modifies this`store
      ensures Lookup(store, id) == Written(old(Lookup(store, id)), instances[id], wrote)
      ensures Lookup(store, id) ==
        if wrote && instances[id].cred.Some? && instances[id].account != "" then
          Some(Stored(instances[id].cred.value, instances[id].account, instances[id].tokens, instances[id].desired))
        else old(Lookup(store, id))
      ensures forall k :: k != id ==> Lookup(store, k) == old(Lookup(store, k))
      ensures raised <==> !wrote && instances[id].cred.Some? && instances[id].account != ""
    {
      var state := instances[id];
      if state.cred == None || state.account == "" {
        return false;
      }
      if wrote {
        store := store[id := Stored(state.cred.value, state.account, state.tokens, state.desired)];
      }
      return !wrote;
    }

    ghost method Record(id: Name, e: Event)
      requires Legal(Trace(id)) && Named(Trace(id)) && Enabled(Run(Trace(id)), e) && (e.Login? ==> e.account != "")
      modifies this`trace
      ensures Trace(id) == old(Trace(id)) + [e] && (forall k :: k != id ==> Trace(k) == old(Trace(k)))
      ensures Legal(Trace(id)) && Named(Trace(id)) && Run(Trace(id)) == Apply(Run(old(Trace(id))), e)
    {
      RunSnoc(Trace(id), e);
      trace := trace[id := Trace(id) + [e]];
    }

    /** start: an instance already up is left alone, a stored session resumes, and otherwise
        a login begins. None when it raised. */
    method StartInstance(id: Name, loginUp: bool, wrote: bool) returns (status: Option<Status>)
      requires Valid()
      modifies this
      ensures Valid() && OnlyAt(id)
      ensures Trace(id) == old(Trace(id)) + [Start(loginUp, wrote)]
      ensures status.Some? ==> Lookup(instances, id).Some? && Lookup(instances, id).value.status == status.value
      ensures id in old(store) ==> status == Some(Online) || (status == None && !wrote)
      ensures StartedAs(id, loginUp, wrote, status)
    {
      assert At(id);
      InvRun(Trace(id));
      Record(id, Start(loginUp, wrote));
      if id in instances && instances[id].status in {PendingLogin, Online} {
        status := Some(instances[id].status);
      } else if id in store {
        var stored := store[id];
        instances := instances[id := Memory(Online, Some(stored.cred), stored.account, stored.tokens, true)];
        var raised := SaveState(id, wrote);
        status := if raised then None else Some(Online);
      } else if loginUp {
        instances := instances[id := Memory(PendingLogin, None, "", map[], true)];
        status := Some(PendingLogin);
      } else {
        status := None;
      }
      StillValid(id);
    }

    method KeepToken(id: Name, msg: string, token: string)
      requires At(id) && Monitoring(Run(Trace(id))) && token != ""
      modifies this
      ensures Follows(id) && OnlyAt(id) && (old(Loose()) ==> Loose())
      ensures Trace(id) == old(Trace(id)) + [Assign(msg, token)]
      ensures store == old(store) && id in old(instances) && id in instances
      ensures instances[id] == old(instances)[id].(tokens := old(instances)[id].tokens[msg := token])
    {
      Record(id, Assign(msg, token));
      var state := instances[id];
      instances := instances[id := state.(tokens := state.tokens[msg := token])];
      if old(Loose()) {
        StillLoose(id);
      }
    }

    method KeepOnDisk(id: Name, wrote: bool) returns (raised: bool)
      requires Follows(id) && Enabled(Run(Trace(id)), Save(wrote))
      modifies this
      ensures Follows(id) && OnlyAt(id)
      ensures Trace(id) == old(Trace(id)) + [Save(wrote)]
      ensures raised == !wrote
      ensures raised ==> At(id)
      ensures !raised ==>
        && Enabled(Run(Trace(id)), Forwarded(true))
        && Run(Trace(id)).flight.value.msg == Run(old(Trace(id))).flight.value.msg
      ensures id in old(instances) && id in instances
      ensures instances[id] == old(instances)[id].(status := if wrote then Online else Failed)
      ensures wrote ==> id in store && store[id].tokens == instances[id].tokens
      ensures !wrote ==> Lookup(store, id) == old(Lookup(store, id))
    {
      InvRun(Trace(id));
      Record(id, Save(wrote));
      raised := SaveState(id, wrote);
      if raised {
        instances := instances[id := instances[id].(status := Failed)];
      }
    }

    method Forward(id: Name, took: bool, ok: bool)
      requires Follows(id) && Enabled(Run(Trace(id)), Forwarded(ok))
      modifies this
      ensures At(id) && OnlyAt(id)
      ensures Trace(id) == old(Trace(id)) + Answers(Run(old(Trace(id))).flight.value.msg, took, ok)
      ensures store == old(store) && id in old(instances) && id in instances
      ensures instances[id] == old(instances)[id].(status := if ok then Online else Failed)
    {
      if took && Run(Trace(id)).flight.value.msg != "" {
        Record(id, Accept);
      }
      Record(id, Forwarded(ok));
      if !ok {
        instances := instances[id := instances[id].(status := Failed)];
      }
    }

    /** on_message: the token goes into memory, the session file is rewritten, and only then
        is the message forwarded. took says whether the gateway accepted it, ok whether its
        answer arrived. An exception ends the monitor. */
    method OnMessage(id: Name, msg: string, token: string, wrote: bool, took: bool, ok: bool)
      requires Valid() && At(id) && Monitoring(Run(Trace(id))) && token != ""
      modifies this
      ensures Valid() && OnlyAt(id)
      ensures Trace(id) == old(Trace(id)) + [Assign(msg, token)] + [Save(wrote)]
                           + if wrote then Answers(msg, took, ok) else []
      ensures id in old(instances) && id in instances
      ensures instances[id] == old(instances)[id].(
        tokens := old(instances)[id].tokens[msg := token], status := if wrote && ok then Online else Failed)
      ensures if wrote then id in store && store[id].tokens == instances[id].tokens
              else Lookup(store, id) == old(Lookup(store, id))
    {
      assert At(id);
      KeepToken(id, msg, token);
      var raised := KeepOnDisk(id, wrote);
      if !raised {
        Forward(id, took, ok);
      }
      StillValid(id);
    }

    /** What stop makes of id's tables: the wish is saved first, and only then is the instance
        offline; without one in memory the wish goes into the file. */
    twostate predicate StoppedAs(id: Name, wrote: bool)
      reads this
    {
      var before, file := old(Lookup(instances, id)), old(Lookup(store, id));
      if before.Some? then
        var m := before.value.(desired := false);
        var saved := m.cred.Some? && m.account != "";
        && Lookup(store, id)
        == (if wrote && saved then Some(Stored(m.cred.value, m.account, m.tokens, false)) else file)
        && Lookup(instances, id) == Some(if saved && !wrote then m else m.(status := Offline))
      else
        && Lookup(instances, id) == None
        && Lookup(store, id) == if wrote && file.Some? then Some(file.value.(desired := false)) else file
    }

    method MarkStopped(id: Name, wrote: bool)
      modifies this`store, this`instances
      ensures StoppedAs(id, wrote)
      ensures forall k :: k != id ==>
        Lookup(store, k) == old(Lookup(store, k)) && Lookup(instances, k) == old(Lookup(instances, k))
    {
      if id in instances {
        instances := instances[id := instances[id].(desired := false)];
        var raised := SaveState(id, wrote);
        if !raised {
          instances := instances[id := instances[id].(status := Offline)];
        }
      } else if id in store && wrote {
        store := store[id := store[id].(desired := false)];
      }
    }

    /** stop: the wish is saved before the monitor is cancelled, which may be in the middle
        of a forward. */
    method StopInstance(id: Name, wrote: bool)
      requires Loose() && Follows(id) && Enabled(Run(Trace(id)), Stop(wrote))
      modifies this
      ensures Loose() && OnlyAt(id) && (old(Valid()) ==> Valid())
      ensures Trace(id) == old(Trace(id)) + [Stop(wrote)]
      ensures StoppedAs(id, wrote)
    {
      InvRun(Trace(id));
      Record(id, Stop(wrote));
      MarkStopped(id, wrote);
      StillLoose(id);
      if old(Valid()) {
        assert old(At(id));
        StillValid(id);
      }
    }

    /** The monitor found the session expired: the file and the memory are cleared. next is
        the status the attempt to show a new login code leaves behind. */
    method ExpireSession(id: Name, next: Status)
      requires Valid() && id in instances && instances[id].status == Online && instances[id].cred.Some?
      requires next in {PendingLogin, Online, Offline}
      modifies this
      ensures Valid() && OnlyAt(id)
      ensures Trace(id) == old(Trace(id)) + [Expire(next)]
      ensures id !in store && id in instances
      ensures instances[id] == Memory(next, None, "", map[], old(instances)[id].desired)
    {
      assert At(id);
      Record(id, Expire(next));
      store := store - {id};
      var state := instances[id];
      instances := instances[id := state.(cred := None, account := "", tokens := map[], status := next)];
      StillValid(id);
    }

    /** A login completed: the session is saved before its messages are polled. */
    method CompleteLogin(id: Name, cred: string, account: string, wrote: bool)
      requires Valid() && id in instances && instances[id].status == PendingLogin && account != ""
      modifies this
      ensures Valid() && OnlyAt(id)
      ensures Trace(id) == old(Trace(id)) + [Login(cred, account, wrote)]
      ensures id in instances && instances[id] == old(instances)[id].(
        cred := Some(cred), account := account, status := if wrote then Online else Failed)
      ensures if wrote then
                id in store && store[id] == Stored(cred, account, instances[id].tokens, instances[id].desired)
              else Lookup(store, id) == old(Lookup(store, id))
    {
      assert At(id);
      InvRun(Trace(id));
      Record(id, Login(cred, account, wrote));
      instances := instances[id := instances[id].(cred := Some(cred), account := account, status := Online)];
      var raised := SaveState(id, wrote);
      if raised {
        instances := instances[id := instances[id].(status := Failed)];
      }
      StillValid(id);
    }

    twostate predicate Untouched(id: Name)
      reads this
    {
      && Lookup(store, id) == old(Lookup(store, id)) && Lookup(instances, id) == old(Lookup(instances, id))
      && Trace(id) == old(Trace(id))
    }

    predicate Up(id: Name)
      reads this
    {
      Lookup(instances, id).Some? && Lookup(instances, id).value.status == Online
    }

    predicate Desired(id: Name)
      reads this
    {
      Lookup(store, id).Some? && Lookup(store, id).value.desired
    }

    /** id's session is online if it should be running, and left alone if not. */
    twostate predicate Restored(id: Name)
      reads this
    {
      if old(Desired(id)) then Up(id) else Untouched(id)
    }

    method RestoreOne(id: Name, loginUp: bool, wrote: bool) returns (online: bool, raised: bool)
      requires Valid() && Lookup(store, id).Some?
      modifies this
      ensures Valid() && OnlyAt(id)
      ensures if raised then !wrote else Restored(id) && online == old(Desired(id))
    {
      online, raised := false, false;
      if Desired(id) {
        var status := StartInstance(id, loginUp, wrote);
        online, raised := status == Some(Online), status == None;
      }
    }

    /** restore_all: the stored sessions that should run are started, one by one; an
        exception ends it. loginUp and wrote say how the calls to start fare. */
    method RestoreAll(ids: seq<Name>, loginUp: bool, wrote: Name -> bool)
      returns (restored: set<Name>, raised: bool)
      requires Valid() && forall i :: 0 <= i < |ids| ==> Lookup(store, ids[i]).Some?
      requires forall i, j :: 0 <= i < j < |ids| ==> ids[i] != ids[j]
      modifies this
      ensures Valid()
      ensures forall id :: id !in ids ==> Untouched(id)
      ensures !raised ==> forall i :: 0 <= i < |ids| ==>
        Restored(ids[i]) && (ids[i] in restored <==> old(Desired(ids[i])))
      ensures raised ==> exists i :: 0 <= i < |ids| && !wrote(ids[i])
      ensures !raised ==> forall i :: 0 <= i < |ids| && ids[i] in old(store) ==>
        && (ids[i] in restored <==> old(store)[ids[i]].desired)
        && (old(store)[ids[i]].desired ==> ids[i] in instances && instances[ids[i]].status == Online)
        && (!old(store)[ids[i]].desired ==> Lookup(instances, ids[i]) == old(Lookup(instances, ids[i])))
    {
      restored := {};
      for k := 0 to |ids|
        invariant Valid()
        invariant forall id :: id !in ids ==> Untouched(id)
        invariant forall i :: k <= i < |ids| ==> Untouched(ids[i]) && ids[i] !in restored
        invariant forall i :: 0 <= i < k ==> Restored(ids[i]) && (ids[i] in restored <==> old(Desired(ids[i])))
      {
        assert Untouched(ids[k]);
        var online;
        online, raised := RestoreOne(ids[k], loginUp, wrote(ids[k]));
        if raised {
          return;
        }
        if online {
          restored := restored + {ids[k]};
        }
      }
      raised := false;
    }

    twostate lemma AfterDeath(id: Name)
      requires old(Follows(id)) && store == old(store) && instances == map[]
      requires Trace(id) == old(Trace(id)) + if id in old(trace) then [Crash] else []
      ensures At(id)
    {
      if id in old(trace) {
        RunSnoc(old(Trace(id)), Crash);
      }
    }

    /** The process dies, perhaps inside a delivery: memory is gone, the files stay. */
    method Die()
      requires Loose()
      modifies this
      ensures Valid() && store == old(store) && instances == map[]
      ensures forall id :: Trace(id) == old(Trace(id)) + if id in old(trace) then [Crash] else []
    {
      instances := map[];
      trace := map id | id in trace :: trace[id] + [Crash];
      forall id ensures At(id) {
        AfterDeath(id);
      }
    }

    /** send: what an outgoing reply goes out with. On the online instance, a reply to an
        accepted message goes out with the token last delivered with it, unless a write or
        the process failed between memory and disk; even then some token is found. */
    method SendReply(id: Name, replyTo: Option<string>) returns (r: Reply)
      requires Valid()
      ensures r == Send(Lookup(instances, id), replyTo)
      ensures r == NotOnline <==>
        !(id in instances && instances[id].status == Online && instances[id].cred.Some?)
      ensures r.Sent? ==>
        && replyTo.Some? && replyTo.value in instances[id].tokens
        && r.token == instances[id].tokens[replyTo.value] != "" && instances[id].cred == Some(r.cred)
      ensures r == NoContext && replyTo.Some? && replyTo.value != "" && replyTo.value in instances[id].tokens ==>
        instances[id].tokens[replyTo.value] == ""
      ensures
        At(id) &&
        var s := Run(Trace(id));
        Monitoring(s) && replyTo.Some? && replyTo.value in s.accepted ==>
          && r.Sent?
          && (Untorn(Trace(id)) ==> LastDelivered(Trace(id), replyTo.value) == Some(r.token))
    {
      assert At(id);
      if Monitoring(Run(Trace(id))) && replyTo.Some? && replyTo.value in Run(Trace(id)).accepted {
        ReplyFindsContext(Trace(id), replyTo.value);
        if Untorn(Trace(id)) {
          WriteAhead(Trace(id), replyTo.value);
        }
      }
      if id !in instances {
        return NotOnline;
      }
      var state := instances[id];
      if state.status != Online || state.cred == None {
        return NotOnline;
      }
      if replyTo == None || replyTo.value == "" || replyTo.value !in state.tokens {
        return NoContext;
      }
      var token := state.tokens[replyTo.value];
      if token == "" {
        return NoContext;
      }
      return Sent(state.cred.value, token);
    }
  }
}
