/** The decision logic of the ISP data service: reading a user record out of
  * the account API's answer, diagnosing the internet connection from three
  * status strings, splitting the package list into the current package and
  * the available ones, splitting the movie servers into OTT and FTP, and
  * the text of a support ticket. The HTTP calls are left out: each operation
  * takes the status code and the decoded body of the answer. An exception
  * Python would raise (a `.get` on a list, a missing `pkg["id"]`, `.lower()`
  * on None) is an `Err`. */
module IspData {
  import opened Wrappers
  import opened Text
  import opened Json
  import opened Collections

  /** `obj.get(key)`: the value, or None. */
  function Field(obj: JsonObject, key: string): Json {
    Get(obj, key, JNull)
  }

  /** The elements a `for` loop over `v` hands its body, when the body then
    * indexes or `.get`s each element: a list gives its items; a dict gives
    * its keys and a string its characters, on which the body raises unless
    * there are none; anything else is not iterable. */
  function LoopItems(v: Json): (r: Result<seq<Json>, string>)
    ensures v.JArr? ==> r == Ok(v.items)
    ensures r.Ok? ==> v.JArr? || r.value == []
    ensures r.Err? <==> ((v.JObj? || v.JStr?) && Truthful(v)) || v.JNull? || v.JBool? || v.JNum?
  {
    match v
    case JArr(items) => Ok(items)
    case JObj(fields) => if fields == map[] then Ok([]) else Err("object keys have no fields")
    case JStr(s) => if s == [] then Ok([]) else Err("characters have no fields")
    case _ => Err("not iterable")
  }

  // ------------------------------------------------------------ user record

  /** The dictionary `parse_user_data` builds, one field per key. */
  datatype UserRecord = UserRecord(
    userId: Json, name: Json, pppoe: Json, mobile: Json, email: Json, address: Json, packageId: Json,
    subscriptionStatus: Json, accountStatus: Json, connStatus: Json, role: Json,
    lastRenewed: Json, willExpire: Json, paymentReceived: Json, paymentPending: Json, fund: Json,
    routerId: Json, areaId: Json, autoDisconnect: Json, totalSupportTicket: Json,
    statistics: Json, fullDetails: JsonObject)

  /** `parse_user_data`: None for the empty answer (the `{}` it returns);
    * an error when "details" is there but is not an object. */
  function ParseUserData(api: JsonObject): (r: Result<Option<UserRecord>, string>)
    ensures api == map[] <==> r == Ok(None)
    ensures r.Err? <==> api != map[] && "details" in api && !api["details"].JObj?
    ensures r.Ok? && r.value.Some? ==>
      var details := if "details" in api then api["details"].fields else map[];
      r.value.value.fullDetails == details &&
      r.value.value.subscriptionStatus == Field(details, "subscription_status") &&
      r.value.value.accountStatus == Field(details, "status") &&
      r.value.value.connStatus == Field(details, "conn_status")
  {
    if api == map[] then Ok(None)
    else
      match Get(api, "details", JObj(map[]))
      case JObj(d) =>
        Ok(Some(UserRecord(
          Field(d, "id"), Field(d, "name"), Field(api, "pppoe"), Field(d, "mobile"), Field(d, "email"),
          Field(d, "address"), Field(d, "package_id"),
          Field(d, "subscription_status"), Field(d, "status"), Field(d, "conn_status"), Field(d, "role"),
          Field(d, "last_renewed"), Field(d, "will_expire"),
          Get(api, "payment_received", JNum(0)), Get(api, "payment_pending", JNum(0)), Get(d, "fund", JStr("0.00")),
          Field(d, "router_id"), Field(d, "area_id"), Field(d, "auto_disconnect"),
          Get(api, "total_support_ticket", JNum(0)), Get(api, "statistics", JObj(map[])), d)))
      case _ => Err("details has no get")
  }

  /** An answer without the payment keys and a details object without "fund"
    * read as payments of 0 and a fund of "0.00"; a key the details lack
    * reads as None. */
  lemma ParseDefaults(api: JsonObject, details: JsonObject)
    requires api != map[] && "details" in api && api["details"] == JObj(details)
    requires "payment_received" !in api && "payment_pending" !in api && "total_support_ticket" !in api
    requires "fund" !in details && "email" !in details
    ensures ParseUserData(api).Ok? && ParseUserData(api).value.Some?
    ensures var u := ParseUserData(api).value.value;
      u.paymentReceived == JNum(0) && u.paymentPending == JNum(0) && u.totalSupportTicket == JNum(0) &&
      u.fund == JStr("0.00") && u.email == JNull
  {
  }

  /** `get_user_by_id` on what the account API gave: nothing (a failed
    * request) and any falsy body are no user. */
  function GetUserById(fetched: Option<Json>): (r: Result<Option<UserRecord>, string>)
    ensures fetched.None? || !Truthful(fetched.value) ==> r == Ok(None)
    ensures fetched.Some? && fetched.value.JObj? ==> r == ParseUserData(fetched.value.fields)
    ensures fetched.Some? && Truthful(fetched.value) && !fetched.value.JObj? ==> r.Err?
  {
    match fetched
    case None => Ok(None)
    case Some(v) =>
      if !Truthful(v) then Ok(None)
      else if v.JObj? then ParseUserData(v.fields)
      else Err("body has no get")
  }

  // ------------------------------------------------------ internet status

  /** The problems `check_internet_status` reports, and their wording. */
  datatype Issue = SubscriptionIs(subscription: string) | AccountIs(account: string) | ConnectionIs(conn: string) | NoIssues

  function IssueText(i: Issue): string {
    match i
    case SubscriptionIs(s) => "Subscription is " + s
    case AccountIs(s) => "Account is " + s
    case ConnectionIs(s) => "Internet connection is " + s
    case NoIssues => "No issues detected"
  }

  /** The advice it gives, and its wording. */
  datatype Advice = RenewSubscription | ContactSupport | RestartRouter | RouterRestartSteps | WorkingNormally

  function AdviceText(a: Advice): string {
    match a
    case RenewSubscription => "Please renew your subscription to restore internet access"
    case ContactSupport => "Please contact support to activate your account"
    case RestartRouter => "Try restarting your router for 30 seconds"
    case RouterRestartSteps =>
      "**Router Restart Steps:**\n1. Unplug the router power cable\n2. Wait for 30 seconds\n3. Plug the router back in\n4. Wait 2-3 minutes for it to fully boot up\n5. Check if internet is working"
    case WorkingNormally => "Your internet connection appears to be working normally"
  }

  /** Different issues read differently, so the report's text says which
    * checks failed and with which status. */
  lemma IssueTextInjective(i: Issue, j: Issue)
    requires IssueText(i) == IssueText(j)
    ensures i == j
  {
    IssueHead(i);
    IssueHead(j);
    match i
    case SubscriptionIs(a) =>
      if j.SubscriptionIs? { ConcatCancel("Subscription is ", a, j.subscription); }
    case AccountIs(a) =>
      if j.AccountIs? { ConcatCancel("Account is ", a, j.account); }
    case ConnectionIs(a) =>
      if j.ConnectionIs? { ConcatCancel("Internet connection is ", a, j.conn); }
    case NoIssues =>
  }

  /** The first character tells the kinds of issue apart. */
  lemma IssueHead(i: Issue)
    ensures IssueText(i) != []
    ensures IssueText(i)[0] == match i
      case SubscriptionIs(_) => 'S'
      case AccountIs(_) => 'A'
      case ConnectionIs(_) => 'I'
      case NoIssues => 'N'
  {
  }

  /** `[x]` when `c` holds, else nothing: one conditional `append`. */
  function When<T>(c: bool, x: T): seq<T> {
    if c then [x] else []
  }

  /** The issues for lower-cased subscription, account and connection
    * statuses: one per failed check, in check order, or the "nothing wrong"
    * entry when every check passes. */
  function IssuesFor(subscription: string, account: string, conn: string): (r: seq<Issue>)
    ensures SubscriptionIs(subscription) in r <==> subscription != "active"
    ensures AccountIs(account) in r <==> account != "active"
    ensures ConnectionIs(conn) in r <==> conn != "conn"
    ensures r == [NoIssues] <==> subscription == "active" && account == "active" && conn == "conn"
    ensures NoIssues !in r || r == [NoIssues]
    ensures |r| <= 3
  {
    var found := When(subscription != "active", SubscriptionIs(subscription)) +
                 When(account != "active", AccountIs(account)) +
                 When(conn != "conn", ConnectionIs(conn));
    if found == [] then [NoIssues] else found
  }

  /** The advice for the same statuses: one piece per failed check, the
    * restart steps when only the connection is down, or the "working
    * normally" entry when every check passes. */
  function AdviceFor(subscription: string, account: string, conn: string): (r: seq<Advice>)
    ensures RenewSubscription in r <==> subscription != "active"
    ensures ContactSupport in r <==> account != "active"
    ensures RestartRouter in r <==> conn != "conn"
    ensures RouterRestartSteps in r <==> subscription == "active" && account == "active" && conn != "conn"
    ensures r == [WorkingNormally] <==> subscription == "active" && account == "active" && conn == "conn"
    ensures WorkingNormally !in r || r == [WorkingNormally]
    ensures |r| <= 3
  {
    var found := When(subscription != "active", RenewSubscription) +
                 When(account != "active", ContactSupport) +
                 When(conn != "conn", RestartRouter) +
                 When(subscription == "active" && account == "active" && conn != "conn", RouterRestartSteps);
    if found == [] then [WorkingNormally] else found
  }

  /** The checks of `check_internet_status`, appending issue and advice
    * check by check, then replacing an empty list by its "nothing wrong"
    * entry. */
  method Diagnose(subscription: string, account: string, conn: string)
    returns (issues: seq<Issue>, recommendations: seq<Advice>)
    ensures issues == IssuesFor(subscription, account, conn)
    ensures recommendations == AdviceFor(subscription, account, conn)
  {
    var subDown, accountDown, connDown := subscription != "active", account != "active", conn != "conn";
    issues := [];
    recommendations := [];
    if subDown {
      issues := issues + [SubscriptionIs(subscription)];
      recommendations := recommendations + [RenewSubscription];
    }
    assert issues == When(subDown, SubscriptionIs(subscription));
    assert recommendations == When(subDown, RenewSubscription);
    if accountDown {
      issues := issues + [AccountIs(account)];
      recommendations := recommendations + [ContactSupport];
    }
    assert issues == When(subDown, SubscriptionIs(subscription)) + When(accountDown, AccountIs(account));
    assert recommendations == When(subDown, RenewSubscription) + When(accountDown, ContactSupport);
    if connDown {
      issues := issues + [ConnectionIs(conn)];
      recommendations := recommendations + [RestartRouter];
    }
    if !subDown && !accountDown && connDown {
      recommendations := recommendations + [RouterRestartSteps];
    }
    if issues == [] {
      issues := [NoIssues];
    }
    if recommendations == [] {
      recommendations := [WorkingNormally];
    }
  }

  datatype InternetStatus =
    | StatusError(message: string)
    | StatusSuccess(userName: Json, subscriptionStatus: string, accountStatus: string, connStatus: string,
                    paymentPending: Json, willExpire: Json, issues: seq<Issue>, recommendations: seq<Advice>)

  /** `.lower()` of a status field: an error on anything but a string
    * (a missing key reads as None). */
  function LowerStatus(v: Json): (r: Result<string, string>)
    ensures v.JStr? <==> r.Ok?
    ensures v.JStr? ==> r.value == Lower(v.s)
  {
    if v.JStr? then Ok(Lower(v.s)) else Err("status is not a string")
  }

  /** `check_internet_status` on what the account API gave. */
  method CheckInternetStatus(fetched: Option<Json>) returns (r: Result<InternetStatus, string>)
    ensures GetUserById(fetched).Err? ==> r.Err?
    ensures GetUserById(fetched) == Ok(None) ==> r == Ok(StatusError("User not found"))
    ensures r.Ok? && r.value.StatusSuccess? ==>
      GetUserById(fetched).Ok? && GetUserById(fetched).value.Some? &&
      var u := GetUserById(fetched).value.value;
      LowerStatus(u.subscriptionStatus) == Ok(r.value.subscriptionStatus) &&
      LowerStatus(u.accountStatus) == Ok(r.value.accountStatus) &&
      LowerStatus(u.connStatus) == Ok(r.value.connStatus) &&
      r.value.userName == u.name && r.value.paymentPending == u.paymentPending && r.value.willExpire == u.willExpire
    ensures r.Ok? && r.value.StatusSuccess? ==>
      r.value.issues == IssuesFor(r.value.subscriptionStatus, r.value.accountStatus, r.value.connStatus) &&
      r.value.recommendations == AdviceFor(r.value.subscriptionStatus, r.value.accountStatus, r.value.connStatus)
    ensures GetUserById(fetched).Ok? && GetUserById(fetched).value.Some? ==>
      var u := GetUserById(fetched).value.value;
      (r.Ok? <==> u.subscriptionStatus.JStr? && u.connStatus.JStr? && u.accountStatus.JStr?) &&
      (r.Ok? ==> r.value.StatusSuccess?)
  {
    var user := GetUserById(fetched);
    if user.Err? {
      return Err(user.error);
    }
    if user.value.None? {
      return Ok(StatusError("User not found"));
    }
    var u := user.value.value;
    var sub := LowerStatus(u.subscriptionStatus);
    var conn := LowerStatus(u.connStatus);
    var account := LowerStatus(u.accountStatus);
    if sub.Err? || conn.Err? || account.Err? {
      return Err("status is not a string");
    }
    var issues, recommendations := Diagnose(sub.value, account.value, conn.value);
    r := Ok(StatusSuccess(u.name, sub.value, account.value, conn.value, u.paymentPending, u.willExpire,
                          issues, recommendations));
  }

  // ------------------------------------------------------------- packages

  /** What the reply says about one package. */
  datatype PackageInfo = PackageInfo(name: Json, bandwidth: Json, price: Json, pricingType: Json)

  datatype Subscription =
    | SubscriptionError(message: string)
    | SubscriptionSuccess(userName: Json, current: PackageInfo, subscriptionStatus: Json, willExpire: Json,
                          lastRenewed: Json, available: seq<PackageInfo>)

  /** Indexing `pkg["id"]` succeeds: an object with an id. */
  predicate HasId(p: Json) {
    p.JObj? && "id" in p.fields
  }

  predicate IsPackage(p: Json, id: Json) {
    HasId(p) && p.fields["id"] == id
  }

  function NotPackage(id: Json): Json -> bool {
    (p: Json) => !IsPackage(p, id)
  }

  /** The current package and the candidates as the loop leaves them: the
    * current package is overwritten at every match, every other package is
    * appended to the candidates. */
  function Partition(pkgs: seq<Json>, id: Json): (Option<JsonObject>, seq<Json>)
    decreases |pkgs|
  {
    if pkgs == [] then (None, [])
    else
      var last := pkgs[|pkgs| - 1];
      var (current, candidates) := Partition(pkgs[..|pkgs| - 1], id);
      if IsPackage(last, id) then (Some(last.fields), candidates) else (current, candidates + [last])
  }

  /** Package `i` is the last one with the id. */
  predicate LastWithId(pkgs: seq<Json>, id: Json, i: int) {
    0 <= i < |pkgs| && IsPackage(pkgs[i], id) && forall j :: i < j < |pkgs| ==> !IsPackage(pkgs[j], id)
  }

  /** There is a current package exactly when some package has the id. */
  lemma {:induction false} PartitionFinds(pkgs: seq<Json>, id: Json)
    ensures Partition(pkgs, id).0.Some? <==> exists i :: 0 <= i < |pkgs| && IsPackage(pkgs[i], id)
    decreases |pkgs|
  {
    if pkgs != [] {
      var n := |pkgs| - 1;
      PartitionFinds(pkgs[..n], id);
      assert forall i :: 0 <= i < n ==> pkgs[..n][i] == pkgs[i];
    }
  }

  /** The current package is the last one with the id. */
  lemma {:induction false} PartitionLast(pkgs: seq<Json>, id: Json)
    requires Partition(pkgs, id).0.Some?
    ensures exists i :: LastWithId(pkgs, id, i) && pkgs[i] == JObj(Partition(pkgs, id).0.value)
    decreases |pkgs|
  {
    var n := |pkgs| - 1;
    if IsPackage(pkgs[n], id) {
      assert LastWithId(pkgs, id, n);
    } else {
      PartitionLast(pkgs[..n], id);
      var i :| LastWithId(pkgs[..n], id, i) && pkgs[..n][i] == JObj(Partition(pkgs[..n], id).0.value);
      assert forall j :: i < j < n ==> pkgs[..n][j] == pkgs[j];
      assert LastWithId(pkgs, id, i);
    }
  }

  /** The candidates are exactly the packages without the id, in order. */
  lemma {:induction false} PartitionCandidates(pkgs: seq<Json>, id: Json)
    ensures Partition(pkgs, id).1 == Filter(pkgs, NotPackage(id))
    decreases |pkgs|
  {
    if pkgs != [] {
      var n := |pkgs| - 1;
      PartitionCandidates(pkgs[..n], id);
      FilterSnoc(pkgs, n, NotPackage(id));
      assert pkgs[..n + 1] == pkgs;
    }
  }

  /** The loop of `get_subscription_packages`: each package is either the
    * current one or a candidate; a package without an id raises. */
  method PartitionPackages(pkgs: seq<Json>, id: Json)
    returns (ok: bool, current: Option<JsonObject>, candidates: seq<Json>)
    ensures ok <==> forall i :: 0 <= i < |pkgs| ==> HasId(pkgs[i])
    ensures ok ==> (current, candidates) == Partition(pkgs, id)
  {
    current, candidates := None, [];
    var i := 0;
    while i < |pkgs|
      invariant 0 <= i <= |pkgs|
      invariant forall j :: 0 <= j < i ==> HasId(pkgs[j])
      invariant (current, candidates) == Partition(pkgs[..i], id)
    {
      var p := pkgs[i];
      if !HasId(p) {
        return false, None, [];
      }
      assert pkgs[..i + 1][..i] == pkgs[..i];
      if p.fields["id"] == id {
        current := Some(p.fields);
      } else {
        candidates := candidates + [p];
      }
      i := i + 1;
    }
    assert pkgs[..i] == pkgs;
    ok := true;
  }

  /** Every package is the current one or a candidate, never both. */
  lemma PartitionCounts(pkgs: seq<Json>, id: Json)
    ensures |Filter(pkgs, (p: Json) => IsPackage(p, id))| + |Filter(pkgs, NotPackage(id))| == |pkgs|
  {
    FilterSplit(pkgs, (p: Json) => IsPackage(p, id), NotPackage(id));
  }

  /** A candidate is listed when both its status and visibility are "active". */
  predicate Listed(p: Json) {
    p.JObj? && Field(p.fields, "status") == JStr("active") && Field(p.fields, "visibility") == JStr("active")
  }

  /** `pkg["package_name"]` and the three other keys are all present. */
  predicate Describable(p: Json) {
    p.JObj? && "package_name" in p.fields && "bandwidth" in p.fields && "price" in p.fields && "pricing_type" in p.fields
  }

  function Describe(p: Json): PackageInfo
    requires Describable(p)
  {
    PackageInfo(p.fields["package_name"], p.fields["bandwidth"], p.fields["price"], p.fields["pricing_type"])
  }

  /** The list comprehension of available packages: the listed candidates,
    * in order, described; a listed one lacking a key raises. */
  function Available(candidates: seq<Json>): (r: Result<seq<PackageInfo>, string>)
    ensures r.Ok? <==> forall p :: p in candidates && Listed(p) ==> Describable(p)
    ensures r.Ok? ==> |r.value| == |Filter(candidates, Listed)|
    ensures r.Ok? ==> forall k :: 0 <= k < |r.value| ==>
      Describable(Filter(candidates, Listed)[k]) && r.value[k] == Describe(Filter(candidates, Listed)[k])
  {
    var listed := Filter(candidates, Listed);
    if forall p :: p in listed ==> Describable(p) then
      Ok(Map(listed, (p: Json) => if Describable(p) then Describe(p) else PackageInfo(JNull, JNull, JNull, JNull)))
    else Err("package lacks a key")
  }

  /** The current package's description, or the fallback when there is none. */
  function CurrentInfo(current: Option<JsonObject>): (r: PackageInfo)
    ensures current.None? ==> r == PackageInfo(JStr("Unknown"), JStr("Unknown"), JStr("0"), JStr("monthly"))
    ensures current.Some? ==>
      r.name == Field(current.value, "package_name") && r.bandwidth == Field(current.value, "bandwidth") &&
      r.price == Field(current.value, "price") && r.pricingType == Field(current.value, "pricing_type")
  {
    match current
    case Some(c) =>
      PackageInfo(Field(c, "package_name"), Field(c, "bandwidth"), Field(c, "price"), Field(c, "pricing_type"))
    case None => PackageInfo(JStr("Unknown"), JStr("Unknown"), JStr("0"), JStr("monthly"))
  }

  /** The answer the loop and the comprehension can read without raising:
    * object details, an iterable package list whose every element has an
    * id, and a describable entry for every listed candidate. */
  predicate PackagesReadable(details: Json, items: Result<seq<Json>, string>) {
    details.JObj? && items.Ok? &&
    (forall i :: 0 <= i < |items.value| ==> HasId(items.value[i])) &&
    Available(Filter(items.value, NotPackage(Field(details.fields, "package_id")))).Ok?
  }

  /** `get_subscription_packages` on the status code and body of the
    * subscription API's answer. */
  method GetSubscriptionPackages(statusCode: int, body: Json) returns (r: Result<Subscription, string>)
    ensures statusCode != 200 ==> r == Ok(SubscriptionError("Could not fetch subscription information"))
    ensures statusCode == 200 && !body.JObj? ==> r.Err?
    ensures statusCode == 200 && body.JObj? ==>
      var details := Get(body.fields, "details", JObj(map[]));
      var items := LoopItems(Get(body.fields, "packages", JArr([])));
      (r.Ok? <==> PackagesReadable(details, items)) &&
      (r.Ok? ==>
        var id := Field(details.fields, "package_id");
        r.value == SubscriptionSuccess(
          Field(details.fields, "name"), CurrentInfo(Partition(items.value, id).0),
          Field(details.fields, "subscription_status"), Field(details.fields, "will_expire"),
          Field(details.fields, "last_renewed"), Available(Filter(items.value, NotPackage(id))).value))
  {
    if statusCode != 200 {
      return Ok(SubscriptionError("Could not fetch subscription information"));
    }
    if !body.JObj? {
      return Err("body has no get");
    }
    var details := Get(body.fields, "details", JObj(map[]));
    var items := LoopItems(Get(body.fields, "packages", JArr([])));
    if !details.JObj? || items.Err? {
      return Err("details or packages malformed");
    }
    var currentId := Field(details.fields, "package_id");
    var ok, current, candidates := PartitionPackages(items.value, currentId);
    if !ok {
      return Err("package without id");
    }
    PartitionCandidates(items.value, currentId);
    var available := Available(candidates);
    if available.Err? {
      return Err(available.error);
    }
    r := Ok(SubscriptionSuccess(Field(details.fields, "name"), CurrentInfo(current),
                                Field(details.fields, "subscription_status"), Field(details.fields, "will_expire"),
                                Field(details.fields, "last_renewed"), available.value));
  }

  // --------------------------------------------------------- movie servers

  datatype MovieServers =
    | ServersError(message: string)
    | ServersSuccess(total: nat, ftpServers: seq<string>, ottServers: seq<string>)

  /** Python's `str` of a value inside an f-string; `show` renders lists and
    * dictionaries. */
  function PyStr(v: Json, show: Json -> string): string {
    match v
    case JStr(s) => s
    case JNull => "None"
    case JBool(b) => if b then "True" else "False"
    case JNum(n) => IntToString(n)
    case _ => show(v)
  }

  /** `f"{name}: {url}"` of one server. */
  function Line(show: Json -> string, s: Json): string {
    if s.JObj? then PyStr(Field(s.fields, "name"), show) + ": " + PyStr(Field(s.fields, "url"), show) else ""
  }

  function ServerLine(show: Json -> string): Json -> string {
    (s: Json) => Line(show, s)
  }

  predicate IsOtt(s: Json) {
    s.JObj? && Field(s.fields, "details") == JStr("OTT")
  }

  function OttServer(): Json -> bool {
    (s: Json) => IsOtt(s)
  }

  function FtpServer(): Json -> bool {
    (s: Json) => !IsOtt(s)
  }

  /** The FTP and the OTT lines as the loop builds them, one server at a
    * time. */
  function Split(servers: seq<Json>, line: Json -> string): (seq<string>, seq<string>)
    decreases |servers|
  {
    if servers == [] then ([], [])
    else
      var last := servers[|servers| - 1];
      var (ftp, ott) := Split(servers[..|servers| - 1], line);
      if IsOtt(last) then (ftp, ott + [line(last)]) else (ftp + [line(last)], ott)
  }

  /** The loop's OTT list holds the lines of the OTT servers, in order. */
  lemma {:induction false} SplitOtt(servers: seq<Json>, line: Json -> string)
    ensures Split(servers, line).1 == Map(Filter(servers, OttServer()), line)
    decreases |servers|
  {
    if servers != [] {
      var n := |servers| - 1;
      SplitOtt(servers[..n], line);
      FilterMapSnoc(servers, n, OttServer(), line);
      assert servers[..n + 1] == servers;
    }
  }

  /** The loop's FTP list holds the lines of all other servers, in order. */
  lemma {:induction false} SplitFtp(servers: seq<Json>, line: Json -> string)
    ensures Split(servers, line).0 == Map(Filter(servers, FtpServer()), line)
    decreases |servers|
  {
    if servers != [] {
      var n := |servers| - 1;
      SplitFtp(servers[..n], line);
      FilterMapSnoc(servers, n, FtpServer(), line);
      assert servers[..n + 1] == servers;
    }
  }

  /** Every server lands on exactly one side. */
  lemma {:induction false} SplitCount(servers: seq<Json>, line: Json -> string)
    ensures |Split(servers, line).0| + |Split(servers, line).1| == |servers|
    decreases |servers|
  {
    if servers != [] {
      SplitCount(servers[..|servers| - 1], line);
    }
  }

  /** The loop of `get_movie_servers`: each server's line (`line` formats
    * it, as `ServerLine` does) goes to the OTT list when its details are
    * exactly "OTT" and to the FTP list otherwise; an element that is not an
    * object raises. */
  method SplitServers(servers: seq<Json>, line: Json -> string)
    returns (ok: bool, ftp: seq<string>, ott: seq<string>)
    ensures ok <==> forall i :: 0 <= i < |servers| ==> servers[i].JObj?
    ensures ok ==> (ftp, ott) == Split(servers, line)
  {
    ftp, ott := [], [];
    var i := 0;
    while i < |servers|
      invariant 0 <= i <= |servers|
      invariant forall j :: 0 <= j < i ==> servers[j].JObj?
      invariant (ftp, ott) == Split(servers[..i], line)
    {
      var s := servers[i];
      if !s.JObj? {
        return false, [], [];
      }
      assert servers[..i + 1][..i] == servers[..i];
      if IsOtt(s) {
        ott := ott + [line(s)];
      } else {
        ftp := ftp + [line(s)];
      }
      i := i + 1;
    }
    assert servers[..i] == servers;
    ok := true;
  }

  /** `get_movie_servers` on the status code and body of the server API's
    * answer. */
  method GetMovieServers(statusCode: int, body: Json, show: Json -> string) returns (r: Result<MovieServers, string>)
    ensures statusCode != 200 ==> r == Ok(ServersError("Could not fetch servers"))
    ensures statusCode == 200 && !body.JObj? ==> r.Err?
    ensures statusCode == 200 && body.JObj? && Field(body.fields, "status") != JStr("success") ==>
      r == Ok(ServersError("No servers found"))
    ensures statusCode == 200 && body.JObj? && Field(body.fields, "status") == JStr("success") ==>
      var items := LoopItems(Get(body.fields, "data", JArr([])));
      (r.Ok? <==> items.Ok? && forall i :: 0 <= i < |items.value| ==> items.value[i].JObj?) &&
      (r.Ok? ==> r.value.ServersSuccess?)
    ensures r.Ok? && r.value.ServersSuccess? ==>
      statusCode == 200 && body.JObj? &&
      var items := LoopItems(Get(body.fields, "data", JArr([])));
      items.Ok? && r.value.total == |items.value| &&
      r.value.ottServers == Map(Filter(items.value, OttServer()), ServerLine(show)) &&
      r.value.ftpServers == Map(Filter(items.value, FtpServer()), ServerLine(show)) &&
      |r.value.ftpServers| + |r.value.ottServers| == r.value.total
  {
    if statusCode != 200 {
      return Ok(ServersError("Could not fetch servers"));
    }
    if !body.JObj? {
      return Err("body has no get");
    }
    if Field(body.fields, "status") != JStr("success") {
      return Ok(ServersError("No servers found"));
    }
    var items := LoopItems(Get(body.fields, "data", JArr([])));
    if items.Err? {
      return Err(items.error);
    }
    var ok, ftp, ott := SplitServers(items.value, ServerLine(show));
    if !ok {
      return Err("server is not an object");
    }
    SplitOtt(items.value, ServerLine(show));
    SplitFtp(items.value, ServerLine(show));
    SplitCount(items.value, ServerLine(show));
    r := Ok(ServersSuccess(|items.value|, ftp, ott));
  }

  // --------------------------------------------------------------- tickets

  const TicketHead: string := "Ticket created by AI Assistant for User "
  const TicketIssue: string := ".\n\nUser Issue: "

  /** The message `create_support_ticket` sends: who the ticket is for, then
    * the user's issue as given. */
  function FormatTicketMessage(userId: string, message: string): (r: string)
    ensures StartsWith(r, TicketHead + userId + TicketIssue)
    ensures EndsWith(r, message)
    ensures |r| == |TicketHead| + |userId| + |TicketIssue| + |message|
  {
    var head := TicketHead + userId + TicketIssue;
    StartsWithConcat(head, message);
    EndsWithConcat(head, message);
    head + message
  }

  /** The user's issue can be read back from the ticket text, so two
    * different issues never give the same ticket. */
  lemma TicketMessageInjective(userId: string, m1: string, m2: string)
    requires FormatTicketMessage(userId, m1) == FormatTicketMessage(userId, m2)
    ensures m1 == m2
  {
    var head := TicketHead + userId + TicketIssue;
    StartsWithConcat(head, m1);
    StartsWithConcat(head, m2);
  }
}
