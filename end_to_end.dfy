/**
  The client and the server together: what the client derives from the server's
  replies (client/src/pages/App.tsx reading server/src/index.ts through
  client/src/services/api.ts).
 */
module EndToEnd {
  import opened Wrappers
  import opened JsonValue
  import opened LicenseServer
  import opened NoteMateApp

  /** The client shows premium exactly when the server holds a license. */
  lemma PremiumIffLicensed(active: Option<ActiveLicense>)
    requires Entitled(active)
    ensures IsPremium(StateView(active)) <==> active.Some?
  {
    StateViewReadsBack(active);
    assert TierName(Pro) == "PRO";
    assert JStr("FREE") != JStr("PRO");
  }

  /** Along any run of the server, the client's premium flag after reloading the
      license state agrees with whether the server's guard lets exportPDF through. */
  lemma {:induction false} PremiumMatchesGuard(productId: Option<string>, calls: seq<Call>)
    ensures IsPremium(StateView(Run(productId, calls)))
        <==> RequireFeature(Run(productId, calls), ExportPdf).Next?
  {
    RunEntitled(productId, calls);
    PremiumIffLicensed(Run(productId, calls));
    ReachableGuard(productId, calls, ExportPdf);
  }

  /** Along any run, a note is exported exactly when the server holds a license. */
  lemma {:induction false} ExportNeedsLicense(productId: Option<string>, calls: seq<Call>, n: Note)
    ensures
      var reply := FeatureReply(Run(productId, calls), ExportPdf);
      reply.Some? &&
      (ExportDownload(Some(n), reply.value.status).Some? <==> Run(productId, calls).Some?)
  {
    ReachableGuard(productId, calls, ExportPdf);
  }

  /** Activate "ABC-123" against a service that answers for Ada, use darkMode, clear, and use it again. */
  lemma ActivationScenario()
    ensures
      var body := JObj([Member("licenseKey", JStr("ABC-123"))]);
      var remote := (req: ActivationRequest) => Activated(JObj([Member("licenseeName", JStr("Ada"))]));
      var (a1, r1) := Step(None, Some("prod-1"), EnterCall(body, "4fzyo82mvyr", "2025-01-01T00:00:00.000Z", remote));
      var (a2, r2) := Step(a1, Some("prod-1"), FeatureCall(DarkMode));
      var (a3, r3) := Step(a2, Some("prod-1"), ClearCall);
      var (a4, r4) := Step(a3, Some("prod-1"), FeatureCall(DarkMode));
      && r1.Some? && r1.value.status == 200
      && a1 == Some(ActiveLicense("ABC-123", "host-4fzyo82mvyr", Pro, ProFeatures,
                                  "2025-01-01T00:00:00.000Z", Some(JStr("Ada")), None))
      && r2 == Some(FeatureOkReply(DarkMode))
      && a3 == None && r3 == Some(ClearedReply())
      && r4.Some? && r4.value.status == 402
  {
    var body := JObj([Member("licenseKey", JStr("ABC-123"))]);
    var answer := JObj([Member("licenseeName", JStr("Ada"))]);
    var remote := (req: ActivationRequest) => Activated(answer);
    var now := "2025-01-01T00:00:00.000Z";
    assert ParseBody(body) == Success(EnterRequest("ABC-123", None, None));
    assert Get(answer, "licenseeName") == Some(JStr("Ada"));
    assert Get(answer, "licenseeEmail") == None;
    var sent := RequestFor(Some("prod-1"), EnterRequest("ABC-123", None, None), "4fzyo82mvyr");
    assert "host-" + "4fzyo82mvyr" == "host-4fzyo82mvyr";
    assert sent.hostId == "host-4fzyo82mvyr";
    assert remote(sent) == Activated(answer);
    assert Activate(None, Some("prod-1"), body, "4fzyo82mvyr", now, remote).1.status == 200;
    var rec := ActiveLicense("ABC-123", "host-4fzyo82mvyr", Pro, ProFeatures, now, Some(JStr("Ada")), None);
    assert Step(None, Some("prod-1"), EnterCall(body, "4fzyo82mvyr", now, remote)).0 == Some(rec);
    assert RequireFeature(Some(rec), DarkMode) == Next;
  }
}
