/** The two `callTelegramApi` adapters, side by side.
    server.js's variant makes one `api.call` and rethrows whatever it throws; the
    webhook path uses it.  dummy_code.js's variant, on a `PHONE_MIGRATE` error,
    switches the client's default data center to the one named in the message and
    issues the same call exactly once more. */
module Adapters {
  import opened Wrappers
  import opened JsText
  import opened Mtproto

  /** One `api.call` from state (`trace`, `dc`): the specification of
      server.js's `callTelegramApi`, whose catch block only logs and rethrows. */
  function PlainCall(respond: Oracle, trace: seq<Sent>, dc: Option<int>, rpc: Rpc): Step {
    var sent := Sent(rpc, dc);
    Step(trace + [sent], dc, respond(|trace|, sent))
  }

  /** The error is the data-center redirect signal: it has an `error_message`
      and that message starts with "PHONE_MIGRATE". */
  predicate IsMigrate(e: ApiError)
    ensures IsMigrate(e) <==> e.errorMessage.Some? && "PHONE_MIGRATE" <= e.errorMessage.value
  {
    e.errorMessage.Some? && StartsWith(e.errorMessage.value, "PHONE_MIGRATE")
  }

  /** `parseInt(message.split('_')[2], 10)`; a missing third segment is
      `undefined`, which `parseInt` turns into `NaN` (here `None`). */
  function ParseDc(message: string): (dc: Option<int>)
    ensures dc.Some? ==> |Split(message, '_')| >= 3
    ensures dc.Some? ==> '_' in message
  {
    var segments := Split(message, '_');
    if |segments| < 3 then None
    else
      assert '_' in message by {
        if '_' !in message { SplitWithoutSeparator(message, '_'); }
      }
      ParseInt(segments[2])
  }

  /** The specification of dummy_code.js's `callTelegramApi`. */
  function MigratingCall(respond: Oracle, trace: seq<Sent>, dc: Option<int>, rpc: Rpc): Step {
    var first := PlainCall(respond, trace, dc, rpc);
    if first.outcome.Failure? && IsMigrate(first.outcome.error) then
      PlainCall(respond, first.trace, ParseDc(first.outcome.error.errorMessage.value), rpc)
    else first
  }

  /** server.js's `callTelegramApi`. */
  method CallTelegramApiPlain(api: Client, rpc: Rpc) returns (o: Outcome)
    modifies api
    ensures Step(api.trace, api.defaultDc, o)
         == PlainCall(api.respond, old(api.trace), old(api.defaultDc), rpc)
  {
    o := api.Call(rpc);
  }

  /** dummy_code.js's `callTelegramApi`. */
  method CallTelegramApi(api: Client, rpc: Rpc) returns (o: Outcome)
    modifies api
    ensures Step(api.trace, api.defaultDc, o)
         == MigratingCall(api.respond, old(api.trace), old(api.defaultDc), rpc)
  {
    o := api.Call(rpc);
    if o.Failure? && IsMigrate(o.error) {
      var newDc := ParseDc(o.error.errorMessage.value);
      api.SetDefaultDc(newDc);
      o := api.Call(rpc);
    }
  }

  /** server.js's adapter never retries: one call, to the current data center,
      whose outcome (result or error) is handed back as it came, and the data
      center is never changed. */
  lemma PlainCallNeverRetries(respond: Oracle, trace: seq<Sent>, dc: Option<int>, rpc: Rpc)
    ensures var s := PlainCall(respond, trace, dc, rpc);
      && |s.trace| == |trace| + 1
      && s.trace[..|trace|] == trace
      && s.trace[|trace|] == Sent(rpc, dc)
      && s.dc == dc
      && s.outcome == respond(|trace|, s.trace[|trace|])
  {
    assert (trace + [Sent(rpc, dc)])[..|trace|] == trace;
  }

  /** A first call that succeeds is the only call; its result is returned and the
      data center is unchanged. */
  lemma MigratingCallFirstSuccess(respond: Oracle, trace: seq<Sent>, dc: Option<int>, rpc: Rpc)
    requires respond(|trace|, Sent(rpc, dc)).Success?
    ensures MigratingCall(respond, trace, dc, rpc)
         == Step(trace + [Sent(rpc, dc)], dc, respond(|trace|, Sent(rpc, dc)))
  {
  }

  /** An error that is not the redirect signal (no `error_message`, or one not
      starting with "PHONE_MIGRATE") is rethrown unchanged after the single call;
      no retry, and the data center is untouched. */
  lemma MigratingCallRethrows(respond: Oracle, trace: seq<Sent>, dc: Option<int>, rpc: Rpc)
    requires respond(|trace|, Sent(rpc, dc)).Failure?
    requires !IsMigrate(respond(|trace|, Sent(rpc, dc)).error)
    ensures MigratingCall(respond, trace, dc, rpc)
         == Step(trace + [Sent(rpc, dc)], dc, Failure(respond(|trace|, Sent(rpc, dc)).error))
  {
  }

  /** On the redirect signal with message `m`, the default data center becomes
      `ParseDc(m)` before a second call with the same method and parameters; that
      second call's result or error is what the caller gets, with no further retry. */
  lemma MigratingCallRedirects(respond: Oracle, trace: seq<Sent>, dc: Option<int>, rpc: Rpc)
    requires respond(|trace|, Sent(rpc, dc)).Failure?
    requires IsMigrate(respond(|trace|, Sent(rpc, dc)).error)
    ensures var newDc := ParseDc(respond(|trace|, Sent(rpc, dc)).error.errorMessage.value);
      MigratingCall(respond, trace, dc, rpc)
      == Step(trace + [Sent(rpc, dc), Sent(rpc, newDc)], newDc,
              respond(|trace| + 1, Sent(rpc, newDc)))
  {
    var newDc := ParseDc(respond(|trace|, Sent(rpc, dc)).error.errorMessage.value);
    assert trace + [Sent(rpc, dc)] + [Sent(rpc, newDc)] == trace + [Sent(rpc, dc), Sent(rpc, newDc)];
  }

  /** Whatever the answers, the migrating adapter keeps the earlier trace, makes one
      or two calls, all with the caller's method and parameters, and changes the
      data center only when it makes two. */
  lemma MigratingCallAtMostOneRetry(respond: Oracle, trace: seq<Sent>, dc: Option<int>, rpc: Rpc)
    ensures var s := MigratingCall(respond, trace, dc, rpc);
      && |trace| + 1 <= |s.trace| <= |trace| + 2
      && s.trace[..|trace|] == trace
      && s.trace[|trace|] == Sent(rpc, dc)
      && (forall k :: |trace| <= k < |s.trace| ==> s.trace[k].rpc == rpc)
      && (|s.trace| == |trace| + 1 ==> s.dc == dc)
  {
    var first := PlainCall(respond, trace, dc, rpc);
    assert first.trace[..|trace|] == trace;
    if first.outcome.Failure? && IsMigrate(first.outcome.error) {
      var s := MigratingCall(respond, trace, dc, rpc);
      assert s.trace == first.trace + [Sent(rpc, s.dc)];
      assert s.trace[..|trace|] == first.trace[..|trace|];
    }
  }

  /** The two adapters differ only on the redirect signal: otherwise they make the
      same single call with the same outcome; on it, server.js's adapter hands the
      PHONE_MIGRATE error to its caller while dummy_code.js's retries. */
  lemma AdaptersSideBySide(respond: Oracle, trace: seq<Sent>, dc: Option<int>, rpc: Rpc)
    ensures var first := respond(|trace|, Sent(rpc, dc));
      if first.Failure? && IsMigrate(first.error) then
        && PlainCall(respond, trace, dc, rpc).outcome == first
        && |MigratingCall(respond, trace, dc, rpc).trace| == |trace| + 2
      else
        MigratingCall(respond, trace, dc, rpc) == PlainCall(respond, trace, dc, rpc)
  {
  }

  /** The redirect prefix is "PHONE", a separator, "MIGRATE" and a separator. */
  lemma MigratePrefixPieces()
    ensures "PHONE_MIGRATE_" == "PHONE" + ['_'] + "MIGRATE" + ['_']
    ensures '_' !in "PHONE" && '_' !in "MIGRATE"
  {
  }

  /** A message "PHONE_MIGRATE_" followed by a separator-free tail splits into
      "PHONE", "MIGRATE" and that tail. */
  lemma MigrateMessageSegments(tail: string)
    requires '_' !in tail
    ensures Split("PHONE_MIGRATE_" + tail, '_') == ["PHONE", "MIGRATE", tail]
  {
    MigratePrefixPieces();
    var phone, migrate := "PHONE", "MIGRATE";
    var rest := migrate + ['_'] + tail;
    assert "PHONE_MIGRATE_" + tail == phone + ['_'] + rest;
    SplitAtFirstSeparator(phone, '_', rest);
    SplitAtFirstSeparator(migrate, '_', tail);
    SplitWithoutSeparator(tail, '_');
  }

  /** The redirect message "PHONE_MIGRATE_<n>" names data center `n`, and the
      adapter reads it back exactly. */
  lemma MigrateMessageNamesDc(n: nat)
    ensures StartsWith("PHONE_MIGRATE_" + Decimal(n), "PHONE_MIGRATE")
    ensures ParseDc("PHONE_MIGRATE_" + Decimal(n)) == Some(n)
  {
    var d := Decimal(n);
    assert '_' !in d by {
      forall i | 0 <= i < |d| ensures d[i] != '_' {
        assert IsDigit(d[i]);
      }
    }
    MigrateMessageSegments(d);
    ParseIntOfDecimal(n);
    assert ("PHONE_MIGRATE_" + d)[..13] == "PHONE_MIGRATE";
  }

  /** A bare "PHONE_MIGRATE" has no third segment, so it names no data center. */
  lemma BareMigrateNamesNoDc()
    ensures ParseDc("PHONE_MIGRATE") == None
  {
    var segments := ["PHONE", "MIGRATE"];
    assert Join(segments, '_') == "PHONE_MIGRATE" by {
      assert segments[1..] == ["MIGRATE"];
      assert "PHONE" + ['_'] + "MIGRATE" == "PHONE_MIGRATE";
    }
    SplitOfJoin(segments, '_');
  }

  /** A bare "PHONE_MIGRATE" still counts as the redirect signal: the adapter
      switches the data center to `NaN` and retries anyway. */
  lemma MigrateMessageWithoutDc(respond: Oracle, trace: seq<Sent>, dc: Option<int>, rpc: Rpc, code: int)
    requires respond(|trace|, Sent(rpc, dc)) == Failure(ApiError(code, Some("PHONE_MIGRATE")))
    ensures var s := MigratingCall(respond, trace, dc, rpc);
      s.dc == None && s.trace == trace + [Sent(rpc, dc), Sent(rpc, None)]
  {
    BareMigrateNamesNoDc();
    assert "PHONE_MIGRATE"[..13] == "PHONE_MIGRATE";
    MigratingCallRedirects(respond, trace, dc, rpc);
  }
}
