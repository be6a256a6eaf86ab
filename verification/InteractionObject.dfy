/** The object of src/do/InteractionDO.ts. Every method is a read, a check and a write that
    nothing else enters (`exclusive`), proved equal to its function in InteractionModel. */
module InteractionObject {
  import opened Options
  import opened InteractionModel

  class InteractionDO {
    var doc: Option<Doc>
    var alarm: Option<Time>

    ghost function Contents(): Cell
      reads this
    {
      Cell(doc, alarm)
    }

    constructor ()
      ensures Contents() == Cell(None, None)
    {
      doc, alarm := None, None;
    }

    method Read(now: Time) returns (r: Answer)
      ensures r == Get(Contents(), now)
      ensures r.Done? <==> Live(Contents(), now)
    {
      if doc.None? || doc.value.expiresAt <= now {
        return Refused(NotFound);
      }
      r := Done(doc.value);
    }

    method Open(d: Draft, now: Time, ttl: int) returns (r: Answer)
      modifies this
      ensures (Contents(), r) == Create(old(Contents()), d, now, ttl)
    {
      if doc.Some? {
        return Refused(Exists);
      }
      doc := Some(Blank(d, now, ttl));
      alarm := Some(doc.value.expiresAt);
      r := Done(doc.value);
    }

    method TakePushed(client: nat, binding: Hash, now: Time, ttl: int) returns (r: Answer)
      modifies this
      ensures (Contents(), r) == ClaimPushed(old(Contents()), client, binding, now, ttl)
    {
      r := Read(now);
      if r.Refused? {
        return;
      }
      var current := r.doc;
      if current.status != Pushed || current.parConsumed || current.clientId != Some(client) {
        return Refused(InvalidState);
      }
      var next := current.(kind := Authorize, bindingHash := binding, parConsumed := true, expiresAt := now + ttl);
      doc, alarm := Some(next), Some(next.expiresAt);
      r := Done(next);
    }

    method Transition(op: Operation, to: Status, p: Patch, now: Time) returns (r: Answer)
      modifies this
      ensures (Contents(), r) == Apply(old(Contents()), op, to, p, now)
    {
      r := Read(now);
      if r.Refused? {
        return;
      }
      if !CanTransition(r.doc.status, op, to) {
        return Refused(InvalidState);
      }
      var next := Patched(r.doc, p).(status := to);
      if IsTerminal(to) {
        next := next.(expiresAt := if next.expiresAt < now + RETENTION then next.expiresAt else now + RETENTION);
      }
      doc := Some(next);
      if IsTerminal(to) {
        alarm := Some(next.expiresAt);
      }
      r := Done(next);
    }

    method TakeCompletion(now: Time) returns (r: Answer)
      modifies this
      ensures (Contents(), r) == ClaimCompletion(old(Contents()), now)
    {
      r := Read(now);
      if r.Refused? {
        return;
      }
      if (r.doc.status != Ready && r.doc.status != Failed) || r.doc.completing {
        return Refused(InvalidState);
      }
      doc := Some(r.doc.(completing := true));
      r := Done(doc.value);
    }

    method TakeFederation(stateHash: Hash, now: Time) returns (r: Answer, leg: Option<Leg>)
      modifies this
      ensures (Contents(), r) == ConsumeFederation(old(Contents()), stateHash, now)
      ensures leg == if r.Done? then old(doc).value.federation else None
    {
      leg := None;
      r := Read(now);
      if r.Refused? {
        return;
      }
      var found := r.doc.federation;
      if found.None? || found.value.stateHash != stateHash || found.value.expiresAt <= now {
        return Refused(InvalidState), None;
      }
      if r.doc.status != LoginRequired {
        return Refused(InvalidState), None;
      }
      doc := Some(r.doc.(federation := None));
      r, leg := Done(doc.value), found;
    }

    method Work(p: WorkPatch, now: Time) returns (r: Answer)
      modifies this
      ensures (Contents(), r) == PatchWork(old(Contents()), p, now)
    {
      r := Read(now);
      if r.Refused? {
        return;
      }
      if IsTerminal(r.doc.status) {
        return Refused(InvalidState);
      }
      doc := Some(Worked(r.doc, p));
      r := Done(doc.value);
    }

    method CountAttempt(now: Time, limit: int) returns (r: Answer, remaining: int)
      modifies this
      ensures (Contents(), r) == Attempt(old(Contents()), now, limit)
      ensures r.Done? ==> remaining == limit - old(doc).value.attempts - 1 >= 0
    {
      remaining := 0;
      r := Read(now);
      if r.Refused? {
        return;
      }
      if IsTerminal(r.doc.status) {
        return Refused(InvalidState), 0;
      }
      var attempts := r.doc.attempts + 1;
      if attempts > limit {
        var _ := Transition(Fail, Failed, TooMany(attempts), now);
        return Refused(TooManyAttempts), 0;
      }
      doc := Some(r.doc.(attempts := attempts));
      r, remaining := Done(doc.value), limit - attempts;
    }

    method Alarm()
      modifies this
      ensures Contents() == Cell(None, None)
    {
      doc, alarm := None, None;
    }
  }
}
