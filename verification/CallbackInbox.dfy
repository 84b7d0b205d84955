/** The callback inbox: it accepts each callback once and reports reused ids and nonces. */
module CallbackInbox {
  import opened Optional
  import opened GatewayTypes

  datatype Binding = Binding(tenant: nat, operation: nat, command: nat)

  /** The payload hash is injective on callbacks, so the callback stands for it. */
  datatype Dedupe = Dedupe(id: CallbackId, tenant: nat, nonce: Nonce, payload: Callback)

  datatype Verdict =
    | AcceptedOnce | Duplicate
    | Unverified | BindingMismatch | IdPayloadConflict | NonceReuse

  datatype Inbox = Inbox(callbacks: map<CallbackId, Dedupe>, nonces: map<Nonce, CallbackId>)

  function DedupeOf(callback: Callback): Dedupe {
    Dedupe(callback.id, callback.tenant, callback.nonce, callback)
  }

  function BindingOf(callback: Callback): Binding {
    Binding(callback.tenant, callback.operation, callback.command)
  }

  /** `verified` is the answer of the signature and clock-window check. */
  function Ingest(inbox: Inbox, signed: Signed, verified: bool, expected: Binding): (Inbox, Verdict) {
    var callback := signed.callback;
    var dedupe := DedupeOf(callback);
    if !verified then (inbox, Unverified)
    else if BindingOf(callback) != expected then (inbox, BindingMismatch)
    else if dedupe.id in inbox.callbacks then
      (inbox, if inbox.callbacks[dedupe.id] == dedupe then Duplicate else IdPayloadConflict)
    else if dedupe.nonce in inbox.nonces && inbox.nonces[dedupe.nonce] != dedupe.id then (inbox, NonceReuse)
    else
      (Inbox(inbox.callbacks[dedupe.id := dedupe], inbox.nonces[dedupe.nonce := dedupe.id]), AcceptedOnce)
  }

  class CallbackInbox {
    var callbacks: map<CallbackId, Dedupe>
    var nonces: map<Nonce, CallbackId>

    ghost function View(): Inbox
      reads this
    {
      Inbox(callbacks, nonces)
    }

    constructor ()
      ensures View() == Inbox(map[], map[])
    {
      callbacks, nonces := map[], map[];
    }

    method IngestCallback(signed: Signed, verified: bool, expected: Binding) returns (verdict: Verdict)
      modifies this
      ensures (View(), verdict) == Ingest(old(View()), signed, verified, expected)
    {
      if !verified {
        return Unverified;
      }
      var callback := signed.callback;
      if callback.tenant != expected.tenant || callback.operation != expected.operation
        || callback.command != expected.command {
        return BindingMismatch;
      }
      var dedupe := DedupeOf(callback);
      if dedupe.id in callbacks {
        var existing := callbacks[dedupe.id];
        if existing.payload == dedupe.payload && existing.tenant == dedupe.tenant && existing.nonce == dedupe.nonce {
          assert existing.id == dedupe.id ==> existing == dedupe;
          return if existing.id == dedupe.id then Duplicate else IdPayloadConflict;
        }
        return IdPayloadConflict;
      }
      if dedupe.nonce in nonces && nonces[dedupe.nonce] != dedupe.id {
        return NonceReuse;
      }
      callbacks := callbacks[dedupe.id := dedupe];
      nonces := nonces[dedupe.nonce := dedupe.id];
      verdict := AcceptedOnce;
    }
  }
}
