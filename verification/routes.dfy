/**
 * The request paths and form bodies the client builds by interpolating its
 * public fields and its arguments (each given here as the text it interpolates to).
 */
module Routes {
  import opened Strings
  import opened Php
  import Decimal

  const TokenPath := "oauth/client_credential/accesstoken?grant_type=client_credentials"
  const AccountsPath := "v1/briva"
  const StatusUpdatePath := "v1/briva/status"

  const FormUrlEncoded := "application/x-www-form-urlencoded"
  const JsonType := "application/json"
  const PlainText := "Text/plain"

  /**
   * `get_status`: `v1/briva/status/{institution}/{briva}/{customer}`; with
   * arguments free of '/', its segments are the three fixed ones, then the
   * three arguments.
   */
  function StatusPath(institution: string, briva: string, customer: string): (path: string)
    ensures '/' !in institution && '/' !in briva && '/' !in customer ==>
      Split(path, '/') == ["v1", "briva", "status", institution, briva, customer]
  {
    var segments := ["v1", "briva", "status", institution, briva, customer];
    StatusPathJoined(institution, briva, customer);
    SplitJoinIfSeparable(segments, '/');
    "v1/briva/status/" + institution + "/" + briva + "/" + customer
  }

  /**
   * `get`: `v1/briva/{institution}/{briva}/{customer}`; with arguments free
   * of '/', its segments are "v1", "briva", then the three arguments.
   */
  function AccountPath(institution: string, briva: string, customer: string): (path: string)
    ensures '/' !in institution && '/' !in briva && '/' !in customer ==>
      Split(path, '/') == ["v1", "briva", institution, briva, customer]
  {
    var segments := ["v1", "briva", institution, briva, customer];
    AccountPathJoined(institution, briva, customer);
    SplitJoinIfSeparable(segments, '/');
    "v1/briva/" + institution + "/" + briva + "/" + customer
  }

  /**
   * `get_report`: `v1/briva/report/{institution}/{briva}/{from}/{to}`; with
   * arguments free of '/', its segments are the three fixed ones, then the
   * four arguments.
   */
  function ReportPath(institution: string, briva: string, from: string, to: string): (path: string)
    ensures '/' !in institution && '/' !in briva && '/' !in from && '/' !in to ==>
      Split(path, '/') == ["v1", "briva", "report", institution, briva, from, to]
  {
    var segments := ["v1", "briva", "report", institution, briva, from, to];
    ReportPathJoined(institution, briva, from, to);
    SplitJoinIfSeparable(segments, '/');
    "v1/briva/report/" + institution + "/" + briva + "/" + from + "/" + to
  }

  /**
   * `delete`'s form body; with values free of '&', it holds exactly the
   * three identifying fields, in this order.
   */
  function DeleteForm(institution: string, briva: string, customer: string): (form: string)
    ensures '&' !in institution && '&' !in briva && '&' !in customer ==>
      Split(form, '&') == ["institutionCode=" + institution, "brivaNo=" + briva, "custCode=" + customer]
  {
    var fields := ["institutionCode=" + institution, "brivaNo=" + briva, "custCode=" + customer];
    DeleteFormJoined(institution, briva, customer);
    SplitJoinIfSeparable(fields, '&');
    "institutionCode=" + institution + "&brivaNo=" + briva + "&custCode=" + customer
  }

  /**
   * `refresh_token`'s form body; with credentials free of '&', it holds
   * exactly the client id and the client secret.
   */
  function RefreshForm(clientId: string, clientSecret: string): (form: string)
    ensures '&' !in clientId && '&' !in clientSecret ==>
      Split(form, '&') == ["client_id=" + clientId, "client_secret=" + clientSecret]
  {
    var fields := ["client_id=" + clientId, "client_secret=" + clientSecret];
    RefreshFormJoined(clientId, clientSecret);
    SplitJoinIfSeparable(fields, '&');
    "client_id=" + clientId + "&client_secret=" + clientSecret
  }

  /** Each path and form, as the source interpolates it, is its fields joined by the separator. */
  lemma StatusPathJoined(institution: string, briva: string, customer: string)
    ensures "v1/briva/status/" + institution + "/" + briva + "/" + customer
         == Join(["v1", "briva", "status", institution, briva, customer], '/')
  {
    assert "v1/briva/status/" == "v1" + "/" + "briva" + "/" + "status" + "/";
    JoinCons(briva, [customer], '/');
    JoinCons(institution, [briva, customer], '/');
    JoinCons("status", [institution, briva, customer], '/');
    JoinCons("briva", ["status", institution, briva, customer], '/');
    JoinCons("v1", ["briva", "status", institution, briva, customer], '/');
  }

  lemma AccountPathJoined(institution: string, briva: string, customer: string)
    ensures "v1/briva/" + institution + "/" + briva + "/" + customer
         == Join(["v1", "briva", institution, briva, customer], '/')
  {
    JoinCons(briva, [customer], '/');
    JoinCons(institution, [briva, customer], '/');
    JoinCons("briva", [institution, briva, customer], '/');
    JoinCons("v1", ["briva", institution, briva, customer], '/');
  }

  lemma ReportPathJoined(institution: string, briva: string, from: string, to: string)
    ensures "v1/briva/report/" + institution + "/" + briva + "/" + from + "/" + to
         == Join(["v1", "briva", "report", institution, briva, from, to], '/')
  {
    assert "v1/briva/report/" == "v1" + "/" + "briva" + "/" + "report" + "/";
    JoinCons(from, [to], '/');
    JoinCons(briva, [from, to], '/');
    JoinCons(institution, [briva, from, to], '/');
    JoinCons("report", [institution, briva, from, to], '/');
    JoinCons("briva", ["report", institution, briva, from, to], '/');
    JoinCons("v1", ["briva", "report", institution, briva, from, to], '/');
  }

  lemma DeleteFormJoined(institution: string, briva: string, customer: string)
    ensures "institutionCode=" + institution + "&brivaNo=" + briva + "&custCode=" + customer
         == Join(["institutionCode=" + institution, "brivaNo=" + briva, "custCode=" + customer], '&')
  {
    JoinCons("brivaNo=" + briva, ["custCode=" + customer], '&');
    JoinCons("institutionCode=" + institution, ["brivaNo=" + briva, "custCode=" + customer], '&');
  }

  lemma RefreshFormJoined(clientId: string, clientSecret: string)
    ensures "client_id=" + clientId + "&client_secret=" + clientSecret
         == Join(["client_id=" + clientId, "client_secret=" + clientSecret], '&')
  {
    JoinCons("client_id=" + clientId, ["client_secret=" + clientSecret], '&');
  }
}
