/** One poll of the device against the eIM's store, step by step. */
module Session {
  import opened Octets
  import opened EuiccPackage
  import opened StoreState
  import opened Handler
  import opened Device
  import opened Exchange
  import Endpoint
  import Runner
  import S = Store

  /** handleGetEimPackage, for eUICC packages. */
  method Poll(store: S.Store, env: Env) returns (r: Option<Request>)
    requires Inv(store.View())
    ensures r == Polled(store.View(), KeyIn(env))
  {
    hide Selected, DecodeRequestBytes, DecodeRequest, RequestTlv;
    var op := Endpoint.SelectOperation(store, env.tenantID, env.eid);
    if op.None? || op.value.kind != EuiccPackageKind { return None; }
    var request := DecodeRequestBytes(op.value.payload);
    if request.None? { return None; }
    return DecodeRequest(RequestTlv(request.value));
  }

  /**
   pollOnce: the device polls, prepares its upload, the eIM handles it, and the device settles.
   Between the values of the store and the device this is an offer and its delivery.
   */
  method PollOnce(store: S.Store, runner: Runner.Runner, env: Env) returns (order: seq<Text>)
    requires Inv(store.View()) && NextNumber(runner.View()) < INT64_LIMIT
    modifies store, runner, runner.device
    ensures Inv(store.View())
    ensures match Offer(env, old(store.View()), old(runner.View()), order)
            case None => store.View() == old(store.View()) && runner.View() == old(runner.View())
            case Some(sent) =>
              var (t, reply) := Uploaded(env, old(store.View()), sent);
              store.View() == t && runner.View() == Settled(sent, reply)
  {
    hide Inv, Polled, Prepared, Provided, UploadTlv, Settled;
    var request := Poll(store, env);
    if request.None? { return []; }
    var sent, walk := runner.Prepare(env, request.value);
    order := walk;
    if sent.None? { return; }
    var reply := Endpoint.RecordEimPackageResult(store, env.tenantID, env.eid,
      UploadTlv(sent.value.result, sent.value.notes), env.verify);
    runner.Settle(sent.value, reply);
  }
}
