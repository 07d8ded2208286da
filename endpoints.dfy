/**
 * The REST paths of my-app/src/config/api.ts: fixed endpoint strings, the
 * per-id path builders (the id is spliced in verbatim) and `buildApiUrl`.
 */
module Endpoints {

  const BaseUrl: string := "http://localhost:8080"

  const Register: string := "/auth/register"
  const Login: string := "/auth/login"
  const Logout: string := "/auth/logout"
  const Profile: string := "/auth/profile"
  const SalesSave: string := "/sales/pr/save"
  const SalesSubmit: string := "/sales/pr/submit"
  const SalesGetAll: string := "/sales/pr"
  const PaGetAll: string := "/pa/pr"
  const PaGetMy: string := "/pa/pr/my"
  const Health: string := "/health"

  /** `SALES.GET_BY_ID`; `SALES.UPDATE` and `SALES.DELETE` build the same path. */
  function SalesById(prId: string): (p: string)
    ensures |p| == |SalesGetAll| + 1 + |prId|
    ensures p[..|SalesGetAll| + 1] == SalesGetAll + "/"
    ensures p[|SalesGetAll| + 1..] == prId
  {
    "/sales/pr/" + prId
  }

  function SalesUpdate(prId: string): (p: string)
    ensures p == SalesById(prId)
  {
    "/sales/pr/" + prId
  }

  function SalesDelete(prId: string): (p: string)
    ensures p == SalesById(prId)
  {
    "/sales/pr/" + prId
  }

  function SalesResubmit(prId: string): (p: string)
    ensures p == SalesById(prId) + "/resubmit"
  {
    "/sales/pr/" + prId + "/resubmit"
  }

  function SalesSendToPa(prId: string): (p: string)
    ensures p == SalesById(prId) + "/send-to-pa"
  {
    "/sales/pr/" + prId + "/send-to-pa"
  }

  function PaById(prId: string): (p: string)
    ensures |p| == |PaGetAll| + 1 + |prId|
    ensures p[..|PaGetAll| + 1] == PaGetAll + "/"
    ensures p[|PaGetAll| + 1..] == prId
  {
    "/pa/pr/" + prId
  }

  function PaAssign(prId: string): (p: string)
    ensures p == PaById(prId) + "/assign"
  {
    "/pa/pr/" + prId + "/assign"
  }

  function PaApproveReject(prId: string): (p: string)
    ensures p == PaById(prId) + "/approve-reject"
  {
    "/pa/pr/" + prId + "/approve-reject"
  }

  /** `buildApiUrl`: the base URL followed by the endpoint. */
  function BuildApiUrl(endpoint: string): (url: string)
    ensures |url| == |BaseUrl| + |endpoint|
    ensures url[..|BaseUrl|] == BaseUrl && url[|BaseUrl|..] == endpoint
  {
    BaseUrl + endpoint
  }

  /** Splicing a fixed prefix and suffix around an id loses nothing. */
  lemma SpliceInjective(pre: string, a: string, b: string, post: string)
    requires pre + a + post == pre + b + post
    ensures a == b
  {
    var p, q := pre + a + post, pre + b + post;
    assert |a| == |b|;
    assert a == p[|pre|..|pre| + |a|];
    assert b == q[|pre|..|pre| + |b|];
  }

  /** Distinct ids give distinct paths, builder by builder. */
  lemma BuildersInjective(a: string, b: string)
    requires a != b
    ensures SalesById(a) != SalesById(b)
    ensures SalesResubmit(a) != SalesResubmit(b)
    ensures SalesSendToPa(a) != SalesSendToPa(b)
    ensures PaById(a) != PaById(b)
    ensures PaAssign(a) != PaAssign(b)
    ensures PaApproveReject(a) != PaApproveReject(b)
  {
    if SalesById(a) == SalesById(b) { SpliceInjective("/sales/pr/", a, b, ""); }
    if SalesResubmit(a) == SalesResubmit(b) { SpliceInjective("/sales/pr/", a, b, "/resubmit"); }
    if SalesSendToPa(a) == SalesSendToPa(b) { SpliceInjective("/sales/pr/", a, b, "/send-to-pa"); }
    if PaById(a) == PaById(b) { SpliceInjective("/pa/pr/", a, b, ""); }
    if PaAssign(a) == PaAssign(b) { SpliceInjective("/pa/pr/", a, b, "/assign"); }
    if PaApproveReject(a) == PaApproveReject(b) { SpliceInjective("/pa/pr/", a, b, "/approve-reject"); }
  }

  /**
   * Because the id is not escaped, different builders can meet: the by-id path
   * of the id `x + "/resubmit"` is the resubmit path of `x`.
   */
  lemma ByIdMeetsResubmit(x: string)
    ensures SalesById(x + "/resubmit") == SalesResubmit(x)
    ensures PaById(x + "/assign") == PaAssign(x)
  {
    assert SalesById(x + "/resubmit") == "/sales/pr/" + x + "/resubmit";
    assert PaById(x + "/assign") == "/pa/pr/" + x + "/assign";
  }

  /**
   * The fixed paths that sit under a by-id prefix are by-id paths of a word:
   * the save and submit paths are the sales by-id paths of "save" and
   * "submit", and the analysts' own-list path is the PA by-id path of "my".
   * No id gives the list paths themselves.
   */
  lemma FixedPathsAgainstBuilders(prId: string)
    ensures SalesById(prId) == SalesSave <==> prId == "save"
    ensures SalesById(prId) == SalesSubmit <==> prId == "submit"
    ensures PaById(prId) == PaGetMy <==> prId == "my"
    ensures SalesById(prId) != SalesGetAll && PaById(prId) != PaGetAll
  {
    assert SalesSave == "/sales/pr/" + "save";
    assert SalesSubmit == "/sales/pr/" + "submit";
    assert PaGetMy == "/pa/pr/" + "my";
  }
}
