/**
 * RemoteContainer: the REST deployment client for WebLogic 12.1.3.
 *
 * deploy POSTs a multipart request (a JSON model plus the archive) to the
 * deployments collection, requires 201, follows the Location header with a
 * GET, requires 200, and reads the servlet routes of the new application out
 * of the JSON body. undeploy DELETEs the deployment by name and requires 200.
 *
 * Each operation is a method over the scripted server of module Rest, proved
 * equal to a pure run function (DeployRun, UndeployRun); the properties of
 * the protocol are lemmas about those functions.
 */
module Container {
  import opened Wrappers
  import opened Json
  import opened Rest
  import opened Config

  // ---------------------------------------------------------------------
  // Deployment name
  // ---------------------------------------------------------------------

  /** String.indexOf: the first index of `c` in `s`, or -1 when there is none. */
  function IndexOf(s: string, c: char): (r: int)
    ensures -1 <= r < |s|
    ensures r == -1 <==> c !in s
    ensures 0 <= r ==> s[r] == c && c !in s[..r]
  {
    if |s| == 0 then -1
    else if s[0] == c then 0
    else
      var k := IndexOf(s[1..], c);
      assert s == [s[0]] + s[1..];
      if k == -1 then -1
      else
        assert s[..k + 1] == [s[0]] + s[1..][..k];
        k + 1
  }

  /**
   * getDeploymentName: the archive name cut at its first '.', or the whole
   * name when it has none.
   */
  function DeploymentName(archiveName: string): (name: string)
    ensures '.' !in name
    ensures name <= archiveName
    ensures '.' !in archiveName ==> name == archiveName
    ensures '.' in archiveName ==> |name| < |archiveName| && archiveName[|name|] == '.'
  {
    var indexOfDot := IndexOf(archiveName, '.');
    if indexOfDot != -1 then archiveName[..indexOfDot] else archiveName
  }

  /** Cutting an already cut name changes nothing. */
  lemma DeploymentNameIdempotent(archiveName: string)
    ensures DeploymentName(DeploymentName(archiveName)) == DeploymentName(archiveName)
  {
  }

  /**
   * The deployment name is THE prefix of the archive name that holds no '.'
   * and is either the whole name or followed by a '.'.
   */
  lemma DeploymentNameIsFirstDotPrefix(archiveName: string, prefix: string)
    requires prefix <= archiveName && '.' !in prefix
    requires prefix == archiveName || archiveName[|prefix|] == '.'
    ensures DeploymentName(archiveName) == prefix
  {
  }

  // ---------------------------------------------------------------------
  // Servlet routes in the GET body
  // ---------------------------------------------------------------------

  /** org.jboss.arquillian...metadata.Servlet: a servlet name and its context path. */
  datatype Servlet = Servlet(name: string, contextRoot: string)

  /** How the extraction loop treats one element of `item.servlets`. */
  datatype Entry =
    | Broken             // the cast to JsonObject or a getString throws
    | Skipped            // an object lacking servletName or contextPath
    | Route(servlet: Servlet)

  function Classify(element: JsonValue): Entry {
    match element
    case JObject(m) =>
      if "servletName" in m && "contextPath" in m then
        if m["servletName"].JString? && m["contextPath"].JString? then
          Route(Servlet(m["servletName"].text, m["contextPath"].text))
        else Broken
      else Skipped
    case _ => Broken
  }

  /**
   * The routes the loop collects from `elements`, or None when it throws.
   * Defined on the last element so that it follows the loop one step at a time.
   */
  function Routes(elements: seq<JsonValue>): Option<seq<Servlet>>
    decreases |elements|
  {
    if |elements| == 0 then Some([])
    else
      match Routes(elements[..|elements| - 1])
      case None => None
      case Some(routes) =>
        (match Classify(elements[|elements| - 1])
         case Broken => None
         case Skipped => Some(routes)
         case Route(servlet) => Some(routes + [servlet]))
  }

  /**
   * The routes of a GET body, or None when reading it throws: the body must
   * be an object; a missing `item` or `servlets` yields no routes; a present
   * `item` that is no object or `servlets` that is no array throws.
   */
  function ExtractRoutes(body: JsonValue): Option<seq<Servlet>> {
    match body
    case JObject(response) =>
      if "item" !in response then Some([])
      else
        (match response["item"]
         case JObject(item) =>
           if "servlets" !in item then Some([])
           else
             (match item["servlets"]
              case JArray(elements) => Routes(elements)
              case _ => None)
         case _ => None)
    case _ => None
  }

  /** Extraction throws exactly when some element of the array is Broken. */
  lemma {:induction false} RoutesFailIffBroken(elements: seq<JsonValue>)
    ensures Routes(elements).None? <==>
            exists i :: 0 <= i < |elements| && Classify(elements[i]).Broken?
  {
    if |elements| > 0 {
      var init := elements[..|elements| - 1];
      RoutesFailIffBroken(init);
      if Routes(init).None? {
        var i :| 0 <= i < |init| && Classify(init[i]).Broken?;
        assert elements[i] == init[i];
      } else if !Classify(elements[|elements| - 1]).Broken? {
        forall i | 0 <= i < |elements|
          ensures !Classify(elements[i]).Broken?
        {
          if i < |init| { assert elements[i] == init[i]; }
        }
      }
    }
  }

  /**
   * `indices` picks out of `elements`, in increasing order, exactly the
   * elements that carry both servletName and contextPath, and `routes` are
   * their pairs.
   */
  ghost predicate SelectsInOrder(elements: seq<JsonValue>, routes: seq<Servlet>, indices: seq<int>) {
    && |indices| == |routes|
    && (forall k :: 0 <= k < |indices| ==>
          0 <= indices[k] < |elements| && Classify(elements[indices[k]]) == Route(routes[k]))
    && (forall k, l :: 0 <= k < l < |indices| ==> indices[k] < indices[l])
    && (forall i :: 0 <= i < |elements| && Classify(elements[i]).Route? ==> i in indices)
  }

  /** When extraction succeeds, its routes are the named elements in array order. */
  lemma {:induction false} RoutesSelectInOrder(elements: seq<JsonValue>)
    requires Routes(elements).Some?
    ensures exists indices :: SelectsInOrder(elements, Routes(elements).value, indices)
  {
    if |elements| == 0 {
      assert SelectsInOrder(elements, [], []);
    } else {
      var init, last := elements[..|elements| - 1], elements[|elements| - 1];
      assert init + [last] == elements;
      assert !Classify(last).Broken?;
      RoutesSelectInOrder(init);
      var indices :| SelectsInOrder(init, Routes(init).value, indices);
      var more := SelectionExtends(init, Routes(init).value, indices, last);
      assert SelectsInOrder(elements, Routes(elements).value, more);
    }
  }

  /** A selection of `init` extends to one of `init + [last]` that also picks `last` if it is a route. */
  lemma SelectionExtends(init: seq<JsonValue>, routes: seq<Servlet>, indices: seq<int>, last: JsonValue)
    returns (more: seq<int>)
    requires SelectsInOrder(init, routes, indices)
    requires !Classify(last).Broken?
    ensures SelectsInOrder(init + [last], if Classify(last).Route? then routes + [Classify(last).servlet] else routes, more)
  {
    var elements := init + [last];
    var n := |init|;
    assert forall i :: 0 <= i < n ==> elements[i] == init[i];
    assert elements[n] == last;
    if Classify(last).Route? {
      more := indices + [n];
      var routes' := routes + [Classify(last).servlet];
      forall k | 0 <= k < |more|
        ensures 0 <= more[k] < |elements| && Classify(elements[more[k]]) == Route(routes'[k])
      {
        if k < |indices| { assert more[k] == indices[k]; }
      }
      forall i | 0 <= i < |elements| && Classify(elements[i]).Route?
        ensures i in more
      {
        if i < n { assert init[i] == elements[i]; assert i in indices; }
      }
    } else {
      more := indices;
      forall i | 0 <= i < |elements| && Classify(elements[i]).Route?
        ensures i in more
      {
        assert i < n;
        assert init[i] == elements[i];
      }
    }
  }

  /** A body without `item`, or whose `item` has no `servlets`, gives no routes and no error. */
  lemma NoServletsNoRoutes(body: JsonValue)
    requires body.JObject?
    requires "item" !in body.members ||
             (body.members["item"].JObject? && "servlets" !in body.members["item"].members)
    ensures ExtractRoutes(body) == Some([])
  {
  }

  /** A single well-formed servlet entry yields exactly that one route. */
  lemma SingleServletRoute(name: string, path: string)
    ensures ExtractRoutes(JObject(map["item" := JObject(map["servlets" := JArray([
              JObject(map["servletName" := JString(name), "contextPath" := JString(path)])])])]))
            == Some([Servlet(name, path)])
  {
    var entry := JObject(map["servletName" := JString(name), "contextPath" := JString(path)]);
    assert [entry][..0] == [];
    assert Classify(entry) == Route(Servlet(name, path));
    assert Routes([]) == Some([]);
    assert [entry][0] == entry;
    assert Routes([entry]) == Some([] + [Servlet(name, path)]);
    assert [] + [Servlet(name, path)] == [Servlet(name, path)];
  }

  // ---------------------------------------------------------------------
  // Requests and endpoints
  // ---------------------------------------------------------------------

  const StatusOk := 200
  const StatusCreated := 201
  const DeploymentsPath := "/management/wls/latest/deployments/application"
  const IdSegment := "/id/"

  /**
   * What java.net makes of the admin URL string: new URL(...) fails, or
   * toURI()/new URI(...) fails, or it gives host, port and the URI text.
   */
  datatype UrlParse =
    | MalformedUrl
    | NotUriSyntax
    | Parsed(host: string, port: int, uriText: string)

  /** The java.net library as parameters: URL parsing, and whether new URI(text) accepts a text. */
  datatype UrlLibrary = UrlLibrary(parseUrl: string -> UrlParse, isUri: string -> bool)

  /** new URL(adminUrl): a null string is malformed. */
  function ParseAdminUrl(adminUrl: Option<string>, urls: UrlLibrary): UrlParse {
    match adminUrl
    case None => MalformedUrl
    case Some(text) => urls.parseUrl(text)
  }

  /** The JSON model part of the deploy request: {"name": name, "targets": [target]}. */
  function DeployModel(name: string, target: string): JsonValue {
    JObject(map["name" := JString(name), "targets" := JArray([JString(target)])])
  }

  /** The deployments collection, normalized: `<admin URI>/management/wls/latest/deployments/application`. */
  function CollectionUri(uriText: string): Uri {
    Uri(uriText + DeploymentsPath, true)
  }

  /** Java string concatenation shows a null String as "null". */
  function JavaText(s: Option<string>): string {
    match s
    case None => "null"
    case Some(text) => text
  }

  /** The undeploy URI text: the raw adminUrl string, the collection path, "/id/" and the name. */
  function UndeployText(adminUrl: Option<string>, name: string): string {
    JavaText(adminUrl) + DeploymentsPath + IdSegment + name
  }

  // ---------------------------------------------------------------------
  // The deploy and undeploy protocol
  // ---------------------------------------------------------------------

  /** The HTTPContext of a deployment, as a value: host, port and routes. */
  datatype Connection = Connection(host: string, port: int, servlets: seq<Servlet>)

  /** Every way deploy and undeploy end abnormally. */
  datatype DeployError =
    | NullTarget              // NullPointerException from the JSON builder (no DeploymentException)
    | MalformedAdminUrl       // DeploymentException "Deployment failed" (MalformedURLException)
    | AdminUriSyntax          // DeploymentException "Deployment failed" (URISyntaxException)
    | TransportFailure        // ProcessingException from the client (no DeploymentException)
    | UnexpectedStatus(response: Response)   // DeploymentException carrying response.toString()
    | MissingLocation         // NullPointerException from target(null) (no DeploymentException)
    | PopulateFailed          // DeploymentException "Failed to populate the HTTPContext ..."

  const DeploymentFailed := "Deployment failed"
  const PopulateFailedMessage := "Failed to populate the HTTPContext with the deployment details"

  /**
   * The fixed message of the DeploymentException an error is raised as;
   * None for the exceptions that are no DeploymentException and for an
   * unexpected status, whose message is the response's own text.
   */
  function Message(e: DeployError): Option<string> {
    match e
    case MalformedAdminUrl => Some(DeploymentFailed)
    case AdminUriSyntax => Some(DeploymentFailed)
    case PopulateFailed => Some(PopulateFailedMessage)
    case _ => None
  }

  /** A whole call: how it ends, what the server saw, how many scripted responses it used. */
  datatype Run<T> = Run(outcome: Result<T, DeployError>, events: seq<Event>, consumed: nat)

  /** The requests deploy sends, given the configured target and adminUrl. */
  function DeployRun(target: Option<string>, adminUrl: Option<string>, archiveName: string,
                     urls: UrlLibrary, script: seq<Response>): (run: Run<Connection>)
    ensures run.consumed <= |script|
  {
    var name := DeploymentName(archiveName);
    if target.None? then Run(Failure(NullTarget), [], 0)
    else
      var entity := MultiPart(DeployModel(name, target.value), archiveName);
      match ParseAdminUrl(adminUrl, urls)
      case MalformedUrl => Run(Failure(MalformedAdminUrl), [], 0)
      case NotUriSyntax => Run(Failure(AdminUriSyntax), [], 0)
      case Parsed(host, port, uriText) =>
        var posted := [ClientOpened, Sent(Post(CollectionUri(uriText), entity))];
        if |script| == 0 then Run(Failure(TransportFailure), posted, 0)
        else if script[0].status != StatusCreated then Run(Failure(UnexpectedStatus(script[0])), posted, 1)
        else if script[0].location.None? then Run(Failure(MissingLocation), posted, 1)
        else
          var fetched := posted + [Sent(Get(Uri(script[0].location.value, false)))];
          if |script| == 1 then Run(Failure(TransportFailure), fetched, 1)
          else if script[1].status != StatusOk then Run(Failure(UnexpectedStatus(script[1])), fetched, 2)
          else
            match ExtractRoutes(script[1].body)
            case None => Run(Failure(PopulateFailed), fetched, 2)
            case Some(routes) => Run(Success(Connection(host, port, routes)), fetched + [ClientClosed], 2)
  }

  /** The requests undeploy sends, given the configured adminUrl. */
  function UndeployRun(adminUrl: Option<string>, archiveName: string, urls: UrlLibrary,
                       script: seq<Response>): (run: Run<()>)
    ensures run.consumed <= |script|
  {
    var text := UndeployText(adminUrl, DeploymentName(archiveName));
    if !urls.isUri(text) then Run(Failure(AdminUriSyntax), [ClientOpened], 0)
    else
      var deleted := [ClientOpened, Sent(Delete(Uri(text, false))), ClientClosed];
      if |script| == 0 then Run(Failure(TransportFailure), deleted[..2], 0)
      else if script[0].status != StatusOk then Run(Failure(UnexpectedStatus(script[0])), deleted, 1)
      else Run(Success(()), deleted, 1)
  }

  /** Some GET request is among the events. */
  ghost predicate SentGet(events: seq<Event>) {
    exists i :: 0 <= i < |events| && events[i].Sent? && events[i].request.Get?
  }

  /** The deploy POST carries the normalized collection URI and the model {name, targets: [target]}. */
  lemma DeployPostsModel(target: Option<string>, adminUrl: Option<string>, archiveName: string,
                         urls: UrlLibrary, script: seq<Response>)
    requires target.Some? && ParseAdminUrl(adminUrl, urls).Parsed?
    ensures var run := DeployRun(target, adminUrl, archiveName, urls, script);
            && |run.events| >= 2 && run.events[0] == ClientOpened
            && (forall i, j :: 0 <= i < j < |run.events| ==>
                  !(run.events[i] == ClientOpened && run.events[j] == ClientOpened))
            && run.events[1] == Sent(Post(CollectionUri(ParseAdminUrl(adminUrl, urls).uriText),
                                          MultiPart(DeployModel(DeploymentName(archiveName), target.value),
                                                    archiveName)))
            && run.events[1].request.uri.normalized
            && run.events[1].request.uri.text
               == ParseAdminUrl(adminUrl, urls).uriText + "/management/wls/latest/deployments/application"
  {
  }

  /** The model object has exactly the members name and targets, with targets a one-element list. */
  lemma DeployModelShape(name: string, target: string)
    ensures DeployModel(name, target).members.Keys == {"name", "targets"}
    ensures DeployModel(name, target).members["name"] == JString(name)
    ensures DeployModel(name, target).members["targets"].elements == [JString(target)]
  {
  }

  /** Nothing reaches the server before the target and the admin URL have been accepted. */
  lemma DeployFailsEarly(target: Option<string>, adminUrl: Option<string>, archiveName: string,
                         urls: UrlLibrary, script: seq<Response>)
    requires target.None? || !ParseAdminUrl(adminUrl, urls).Parsed?
    ensures var run := DeployRun(target, adminUrl, archiveName, urls, script);
            && run.outcome.Failure? && run.events == [] && run.consumed == 0
            && (target.None? ==> run.outcome.error == NullTarget)
            && (target.Some? && adminUrl.None? ==> run.outcome.error == MalformedAdminUrl)
            && (target.Some? ==> Message(run.outcome.error) == Some("Deployment failed"))
  {
  }

  /** A POST answered with anything but 201 fails deploy, and no GET follows. */
  lemma DeployRejectedPost(target: Option<string>, adminUrl: Option<string>, archiveName: string,
                           urls: UrlLibrary, script: seq<Response>)
    requires target.Some? && ParseAdminUrl(adminUrl, urls).Parsed?
    requires |script| > 0 && script[0].status != StatusCreated
    ensures var run := DeployRun(target, adminUrl, archiveName, urls, script);
            && run.outcome == Failure(UnexpectedStatus(script[0]))
            && !SentGet(run.events) && ClientClosed !in run.events && run.consumed == 1
  {
    var run := DeployRun(target, adminUrl, archiveName, urls, script);
    assert |run.events| == 2 && run.events[0] == ClientOpened && run.events[1].request.Post?;
  }

  /** A 201 POST followed by a GET of its Location answered with anything but 200 fails deploy. */
  lemma DeployRejectedGet(target: Option<string>, adminUrl: Option<string>, archiveName: string,
                          urls: UrlLibrary, script: seq<Response>)
    requires target.Some? && ParseAdminUrl(adminUrl, urls).Parsed?
    requires |script| > 1 && script[0].status == StatusCreated && script[0].location.Some?
    requires script[1].status != StatusOk
    ensures var run := DeployRun(target, adminUrl, archiveName, urls, script);
            && run.outcome == Failure(UnexpectedStatus(script[1]))
            && |run.events| == 3 && run.events[2] == Sent(Get(Uri(script[0].location.value, false)))
            && ClientClosed !in run.events && run.consumed == 2
  {
  }

  /**
   * A successful deploy went through 201 and 200, and its context has the
   * admin URL's host and port, whatever the body holds, and the body's routes.
   */
  lemma DeploySucceeded(target: Option<string>, adminUrl: Option<string>, archiveName: string,
                        urls: UrlLibrary, script: seq<Response>)
    requires DeployRun(target, adminUrl, archiveName, urls, script).outcome.Success?
    ensures var run := DeployRun(target, adminUrl, archiveName, urls, script);
            var url := ParseAdminUrl(adminUrl, urls);
            && target.Some? && url.Parsed?
            && |script| >= 2 && script[0].status == StatusCreated && script[1].status == StatusOk
            && run.outcome.value.host == url.host && run.outcome.value.port == url.port
            && ExtractRoutes(script[1].body) == Some(run.outcome.value.servlets)
  {
  }

  /**
   * Conversely, a 201 POST with a Location, a 200 GET and a readable body make
   * deploy succeed with the admin URL's host and port and the body's routes,
   * after exactly: open, POST, GET, close.
   */
  lemma DeploySucceedsWhen(target: Option<string>, adminUrl: Option<string>, archiveName: string,
                           urls: UrlLibrary, script: seq<Response>)
    requires target.Some? && ParseAdminUrl(adminUrl, urls).Parsed?
    requires |script| > 1 && script[0].status == StatusCreated && script[0].location.Some?
    requires script[1].status == StatusOk && ExtractRoutes(script[1].body).Some?
    ensures var run := DeployRun(target, adminUrl, archiveName, urls, script);
            var url := ParseAdminUrl(adminUrl, urls);
            && run.outcome == Success(Connection(url.host, url.port, ExtractRoutes(script[1].body).value))
            && run.events == [ClientOpened,
                              Sent(Post(CollectionUri(url.uriText),
                                        MultiPart(DeployModel(DeploymentName(archiveName), target.value),
                                                  archiveName))),
                              Sent(Get(Uri(script[0].location.value, false))),
                              ClientClosed]
            && run.consumed == 2
  {
  }

  /** A 200 GET body without `item` gives a successful deploy with zero routes. */
  lemma DeployWithoutItemHasNoRoutes(target: Option<string>, adminUrl: Option<string>, archiveName: string,
                                     urls: UrlLibrary, script: seq<Response>)
    requires target.Some? && ParseAdminUrl(adminUrl, urls).Parsed?
    requires |script| > 1 && script[0].status == StatusCreated && script[0].location.Some?
    requires script[1].status == StatusOk
    requires script[1].body.JObject? && "item" !in script[1].body.members
    ensures var run := DeployRun(target, adminUrl, archiveName, urls, script);
            run.outcome.Success? && run.outcome.value.servlets == []
            && run.outcome.value.host == ParseAdminUrl(adminUrl, urls).host
            && run.outcome.value.port == ParseAdminUrl(adminUrl, urls).port
  {
    NoServletsNoRoutes(script[1].body);
  }

  /** The client is closed only on the success path of deploy; every failure leaves it open. */
  lemma DeployClosesOnlyOnSuccess(target: Option<string>, adminUrl: Option<string>,
                                  archiveName: string, urls: UrlLibrary, script: seq<Response>)
    ensures var run := DeployRun(target, adminUrl, archiveName, urls, script);
            ClientClosed in run.events <==> run.outcome.Success?
  {
  }

  /** A non-object servlet entry, or a non-string servletName/contextPath, fails deploy at populate. */
  lemma DeployBrokenEntryFails(target: Option<string>, adminUrl: Option<string>, archiveName: string,
                               urls: UrlLibrary, script: seq<Response>, i: int)
    requires target.Some? && ParseAdminUrl(adminUrl, urls).Parsed?
    requires |script| > 1 && script[0].status == StatusCreated && script[0].location.Some?
    requires script[1].status == StatusOk
    requires script[1].body.JObject? && "item" in script[1].body.members
    requires script[1].body.members["item"].JObject?
    requires "servlets" in script[1].body.members["item"].members
    requires script[1].body.members["item"].members["servlets"].JArray?
    requires 0 <= i < |script[1].body.members["item"].members["servlets"].elements|
    requires Classify(script[1].body.members["item"].members["servlets"].elements[i]).Broken?
    ensures DeployRun(target, adminUrl, archiveName, urls, script).outcome == Failure(PopulateFailed)
    ensures Message(DeployRun(target, adminUrl, archiveName, urls, script).outcome.error)
            == Some("Failed to populate the HTTPContext with the deployment details")
  {
    RoutesFailIffBroken(script[1].body.members["item"].members["servlets"].elements);
  }

  /**
   * undeploy sends one DELETE to the raw (not normalized) adminUrl text plus
   * the path and the name, closes the client before looking at the status,
   * and fails exactly when the status is not 200.
   */
  lemma UndeployDeletes(adminUrl: Option<string>, archiveName: string, urls: UrlLibrary,
                        script: seq<Response>)
    requires urls.isUri(UndeployText(adminUrl, DeploymentName(archiveName))) && |script| > 0
    ensures var run := UndeployRun(adminUrl, archiveName, urls, script);
            && run.events == [ClientOpened,
                              Sent(Delete(Uri(JavaText(adminUrl)
                                              + "/management/wls/latest/deployments/application/id/"
                                              + DeploymentName(archiveName), false))),
                              ClientClosed]
            && (run.outcome.Failure? <==> script[0].status != StatusOk)
            && (run.outcome.Failure? ==> run.outcome.error == UnexpectedStatus(script[0]))
            && run.consumed == 1
  {
    var name := DeploymentName(archiveName);
    assert DeploymentsPath + IdSegment == "/management/wls/latest/deployments/application/id/";
    assert JavaText(adminUrl) + DeploymentsPath + IdSegment + name
        == JavaText(adminUrl) + (DeploymentsPath + IdSegment) + name;
  }

  /** When new URI(...) refuses the undeploy text, the client built just before is never closed. */
  lemma UndeployBadUri(adminUrl: Option<string>, archiveName: string, urls: UrlLibrary,
                       script: seq<Response>)
    requires !urls.isUri(UndeployText(adminUrl, DeploymentName(archiveName)))
    ensures var run := UndeployRun(adminUrl, archiveName, urls, script);
            && run.outcome == Failure(AdminUriSyntax) && run.events == [ClientOpened]
            && Message(run.outcome.error) == Some("Deployment failed")
  {
  }

  /**
   * Deploy and a later undeploy of the same archive address the same
   * deployment: the DELETE text ends in "/id/" followed by the name in the
   * POSTed model. Deploy's URI is normalized, undeploy's is not.
   */
  lemma DeployAndUndeployAgreeOnName(target: Option<string>, adminUrl: Option<string>,
                                     archiveName: string, urls: UrlLibrary,
                                     deployScript: seq<Response>, undeployScript: seq<Response>)
    requires target.Some? && ParseAdminUrl(adminUrl, urls).Parsed?
    requires urls.isUri(UndeployText(adminUrl, DeploymentName(archiveName)))
    requires |undeployScript| > 0
    ensures var posted := DeployRun(target, adminUrl, archiveName, urls, deployScript).events[1].request;
            var deleted := UndeployRun(adminUrl, archiveName, urls, undeployScript).events[1].request;
            && posted.Post? && posted.entity.model.JObject? && deleted.Delete?
            && "name" in posted.entity.model.members && posted.entity.model.members["name"].JString?
            && deleted.uri.text == JavaText(adminUrl) + DeploymentsPath + IdSegment
                                   + posted.entity.model.members["name"].text
            && posted.uri.normalized && !deleted.uri.normalized
  {
    DeployPostsModel(target, adminUrl, archiveName, urls, deployScript);
  }

  // ---------------------------------------------------------------------
  // The client objects
  // ---------------------------------------------------------------------

  /** HTTPContext: host and port of the server, and the servlet routes added to it. */
  class HTTPContext {
    const host: string
    const port: int
    var servlets: seq<Servlet>

    constructor (host: string, port: int)
      ensures this.host == host && this.port == port && servlets == []
    {
      this.host, this.port := host, port;
      servlets := [];
    }

    method Add(servlet: Servlet)
      modifies this
      ensures servlets == old(servlets) + [servlet]
    {
      servlets := servlets + [servlet];
    }
  }

  function ConnectionOf(context: HTTPContext): Connection
    reads context
  {
    Connection(context.host, context.port, context.servlets)
  }

  /** ProtocolMetaData: the contexts of a deployment. */
  class ProtocolMetaData {
    var contexts: seq<HTTPContext>

    constructor ()
      ensures contexts == []
    {
      contexts := [];
    }

    method AddContext(context: HTTPContext)
      modifies this
      ensures contexts == old(contexts) + [context]
    {
      contexts := contexts + [context];
    }
  }

  class RemoteContainer {
    const configuration: WebLogicRemoteConfiguration
    /** The admin server the REST calls reach. */
    const server: Server

    constructor (configuration: WebLogicRemoteConfiguration, server: Server)
      ensures this.configuration == configuration && this.server == server
    {
      this.configuration, this.server := configuration, server;
    }

    /** getRestClient: a fresh client for each call. */
    method GetRestClient() returns (restClient: RestClient)
      modifies server
      ensures fresh(restClient) && restClient.open && restClient.server == server
      ensures server.log == old(server.log) + [ClientOpened] && server.script == old(server.script)
    {
      restClient := new RestClient(server);
    }

    /**
     * The body of deploy's try block up to addContext: reads the servlets of
     * `body` into `httpContext` in array order, or reports that it threw.
     */
    method Populate(httpContext: HTTPContext, body: JsonValue) returns (ok: bool)
      modifies httpContext
      ensures ok == ExtractRoutes(body).Some?
      ensures ok ==> httpContext.servlets == old(httpContext.servlets) + ExtractRoutes(body).value
      ensures !ok ==> old(httpContext.servlets) <= httpContext.servlets
    {
      if !body.JObject? { return false; }
      var jsonResponse := body.members;
      if "item" in jsonResponse {
        if !jsonResponse["item"].JObject? { return false; }
        var item := jsonResponse["item"].members;
        if "servlets" in item {
          if !item["servlets"].JArray? { return false; }
          var servlets := item["servlets"].elements;
          var i := 0;
          while i < |servlets|
            invariant 0 <= i <= |servlets|
            invariant Routes(servlets[..i]).Some?
            invariant httpContext.servlets == old(httpContext.servlets) + Routes(servlets[..i]).value
          {
            var servlet := servlets[i];
            assert servlets[..i + 1][..i] == servlets[..i];
            if !servlet.JObject? {
              RoutesFailIffBroken(servlets);
              return false;
            }
            var servletJsonObject := servlet.members;
            if "servletName" in servletJsonObject && "contextPath" in servletJsonObject {
              if !servletJsonObject["servletName"].JString? || !servletJsonObject["contextPath"].JString? {
                RoutesFailIffBroken(servlets);
                return false;
              }
              httpContext.Add(Servlet(servletJsonObject["servletName"].text,
                                      servletJsonObject["contextPath"].text));
            }
            i := i + 1;
          }
          assert servlets[..|servlets|] == servlets;
        }
      }
      return true;
    }

    /** deploy: POST the archive, require 201, GET its Location, require 200, read the routes. */
    method Deploy(archiveName: string, urls: UrlLibrary) returns (result: Result<ProtocolMetaData, DeployError>)
      modifies server
      ensures var run := DeployRun(configuration.target, configuration.adminUrl, archiveName, urls,
                                   old(server.script));
              && server.log == old(server.log) + run.events
              && server.script == old(server.script)[run.consumed..]
              && result.Success? == run.outcome.Success?
              && (result.Failure? ==> result.error == run.outcome.error)
              && (result.Success? ==>
                    && fresh(result.value) && |result.value.contexts| == 1
                    && fresh(result.value.contexts[0])
                    && ConnectionOf(result.value.contexts[0]) == run.outcome.value)
    {
      var deploymentName := DeploymentName(archiveName);
      if configuration.target.None? { return Failure(NullTarget); }
      var model := DeployModel(deploymentName, configuration.target.value);
      var request := MultiPart(model, archiveName);
      var adminUrl := ParseAdminUrl(configuration.adminUrl, urls);
      if adminUrl.MalformedUrl? { return Failure(MalformedAdminUrl); }
      if adminUrl.NotUriSyntax? { return Failure(AdminUriSyntax); }
      var applicationRestUri := CollectionUri(adminUrl.uriText);

      var restClient := GetRestClient();
      var response := restClient.Send(Post(applicationRestUri, request));
      if response.None? { return Failure(TransportFailure); }
      if response.value.status != StatusCreated { return Failure(UnexpectedStatus(response.value)); }

      if response.value.location.None? { return Failure(MissingLocation); }
      response := restClient.Send(Get(Uri(response.value.location.value, false)));
      if response.None? { return Failure(TransportFailure); }
      if response.value.status != StatusOk { return Failure(UnexpectedStatus(response.value)); }

      var metadata := new ProtocolMetaData();
      var httpContext := new HTTPContext(adminUrl.host, adminUrl.port);
      var populated := Populate(httpContext, response.value.body);
      if !populated { return Failure(PopulateFailed); }
      metadata.AddContext(httpContext);
      restClient.Close();
      return Success(metadata);
    }

    /** undeploy: DELETE the deployment by name, close the client, require 200. */
    method Undeploy(archiveName: string, urls: UrlLibrary) returns (result: Result<(), DeployError>)
      modifies server
      ensures var run := UndeployRun(configuration.adminUrl, archiveName, urls, old(server.script));
              && server.log == old(server.log) + run.events
              && server.script == old(server.script)[run.consumed..]
              && result == run.outcome
    {
      var deploymentName := DeploymentName(archiveName);
      var restClient := GetRestClient();
      var text := UndeployText(configuration.adminUrl, deploymentName);
      if !urls.isUri(text) { return Failure(AdminUriSyntax); }
      var response := restClient.Send(Delete(Uri(text, false)));
      if response.None? { return Failure(TransportFailure); }
      restClient.Close();
      if response.value.status != StatusOk { return Failure(UnexpectedStatus(response.value)); }
      return Success(());
    }
  }
}
