# WebLogic 12.1.3 remote container: REST deployment client

This project models the deployment client that the Arquillian WebLogic 12.1.3
remote container uses, and proves properties of it in Dafny.

- `RemoteContainer.deploy` derives a deployment name from the archive name.
  It POSTs a multipart request to the admin server's deployments collection.
  The request holds a JSON model `{name, targets: [target]}` and the archive.
  The POST must return 201. The client then GETs the returned `Location`,
  which must return 200. Finally it reads the servlet routes of the new
  application out of the JSON body into an `HTTPContext` that carries the
  admin URL's host and port.
- `RemoteContainer.undeploy` DELETEs `<adminUrl>/management/wls/latest/deployments/application/id/<name>`.
  The DELETE must return 200.
- `WebLogicRemoteConfiguration` holds the four connection properties,
  with getters and setters. Its `validate()` checks the properties in a fixed order.

Files and modules:

- `wrappers.dfy` (`Wrappers`): `Option` (a Java reference that may be null), `Result` and `Outcome` (a call that may throw).
- `json.dfy` (`Json`): the JSON tree the client inspects. An object is a map, an array a sequence, a string is text, anything else is `JOther`.
- `rest.dfy` (`Rest`): the transport. A `Server` answers requests from a scripted list of `(status, location, body)` responses and logs every event: client opened, request sent, client closed. A `RestClient` has an `open` flag, `Send` and `Close`.
- `configuration.dfy` (`Config`): the class `WebLogicRemoteConfiguration`, with its setters and `Validate`.
- `container.dfy` (`Container`): contains the following.
  - The deployment-name function.
  - Servlet-route extraction.
  - The request and endpoint values.
  - The classes `HTTPContext`, `ProtocolMetaData` and `RemoteContainer`.
  - The pure run functions `DeployRun` and `UndeployRun`. These give the outcome, the server's event log and the number of responses used.
  - The lemmas about those functions.

`RemoteContainer.Deploy` and `RemoteContainer.Undeploy` are imperative methods that follow the Java step by step.
Each is proved to leave exactly the event log, the remaining script and the result that its run function gives.
The properties of the protocol are lemmas about the run functions.

A Java `null` String is `None`.
Exceptions are `DeployError` values:
- `DeploymentException` becomes `MalformedAdminUrl`, `AdminUriSyntax`, `UnexpectedStatus` or `PopulateFailed`.
- A `NullPointerException` from the JSON builder (null target) is `NullTarget`.
- A `NullPointerException` from `target(null)` (missing `Location`) is `MissingLocation`.
- A transport failure (the script has run out) is `TransportFailure`.

Three behaviours of the code are easy to misread:
- `restClient.close()` is reached only on deploy's success path. Every failing status check and every failure while reading the body leaves the client open. In undeploy, a `URISyntaxException` also leaves the client open, because the client is built before the URI. This is proved in `DeployClosesOnlyOnSuccess` and `UndeployBadUri`.
- A servlet entry that is not an object, or whose present `servletName`/`contextPath` is not a string, is not skipped. It fails deploy with "Failed to populate the HTTPContext with the deployment details". An object missing either key is skipped.
- undeploy uses the raw adminUrl string without normalising it. deploy normalizes the collection URI.

## Model

| member | source | states |
|---|---|---|
| `Container.IndexOf` | wls-remote-12.1.3/src/main/java/org/jboss/arquillian/container/wls/remote_12_1_3/RemoteContainer.java:233 | String.indexOf: -1 exactly when the character is absent; otherwise the index of its first occurrence |
| `Container.DeploymentName` | wls-remote-12.1.3/src/main/java/org/jboss/arquillian/container/wls/remote_12_1_3/RemoteContainer.java:231-238 | the name has no '.'; it is a prefix of the archive name; it is the whole name when that has no '.'; otherwise the next character is '.' |
| `Container.DeploymentNameIdempotent` | wls-remote-12.1.3/src/main/java/org/jboss/arquillian/container/wls/remote_12_1_3/RemoteContainer.java:231-238 | deriving the name again from a derived name gives it back unchanged |
| `Container.DeploymentNameIsFirstDotPrefix` | wls-remote-12.1.3/src/main/java/org/jboss/arquillian/container/wls/remote_12_1_3/RemoteContainer.java:231-238 | any dot-free prefix that is the whole name or is followed by '.' is the deployment name (uniqueness) |
| `Container.RoutesFailIffBroken` | wls-remote-12.1.3/src/main/java/org/jboss/arquillian/container/wls/remote_12_1_3/RemoteContainer.java:160-170 | the servlet loop throws exactly when some element is not an object, or has both keys and one of them is not a string |
| `Container.RoutesSelectInOrder` | wls-remote-12.1.3/src/main/java/org/jboss/arquillian/container/wls/remote_12_1_3/RemoteContainer.java:160-170 | on success the routes are exactly the elements with both servletName and contextPath, their pairs, in increasing array order |
| `Container.NoServletsNoRoutes` | wls-remote-12.1.3/src/main/java/org/jboss/arquillian/container/wls/remote_12_1_3/RemoteContainer.java:156-158 | a body without item, or whose item has no servlets, gives zero routes and no error |
| `Container.SingleServletRoute` | wls-remote-12.1.3/src/main/java/org/jboss/arquillian/container/wls/remote_12_1_3/RemoteContainer.java:156-170 | {"item":{"servlets":[{"servletName":n,"contextPath":p}]}} gives exactly the one route (n, p) |
| `Container.DeployModelShape` | wls-remote-12.1.3/src/main/java/org/jboss/arquillian/container/wls/remote_12_1_3/RemoteContainer.java:107-113 | the model object has exactly the members name and targets; name is the given name; targets is the one-element list [target] |
| `Container.DeployPostsModel` | wls-remote-12.1.3/src/main/java/org/jboss/arquillian/container/wls/remote_12_1_3/RemoteContainer.java:104-138 | deploy opens exactly one client and POSTs the model of DeploymentName(archive) and the target to the normalized <admin URI>/management/wls/latest/deployments/application |
| `Container.DeployFailsEarly` | wls-remote-12.1.3/src/main/java/org/jboss/arquillian/container/wls/remote_12_1_3/RemoteContainer.java:107-133 | a null target or an admin URL that does not parse fails deploy before any client is built or request sent; with a target set, the failure is a DeploymentException with the message "Deployment failed" |
| `Container.DeployRejectedPost` | wls-remote-12.1.3/src/main/java/org/jboss/arquillian/container/wls/remote_12_1_3/RemoteContainer.java:136-141 | a POST status other than 201 fails deploy with that response; no GET is sent and the client is not closed |
| `Container.DeployRejectedGet` | wls-remote-12.1.3/src/main/java/org/jboss/arquillian/container/wls/remote_12_1_3/RemoteContainer.java:143-147 | a 201 POST, then a GET of its Location with a status other than 200, fails deploy with the GET response; the client is not closed |
| `Container.DeploySucceeded` | wls-remote-12.1.3/src/main/java/org/jboss/arquillian/container/wls/remote_12_1_3/RemoteContainer.java:149-174 | success implies 201 then 200; the context's host and port are the admin URL's, whatever the body; its routes are the body's routes |
| `Container.DeploySucceedsWhen` | wls-remote-12.1.3/src/main/java/org/jboss/arquillian/container/wls/remote_12_1_3/RemoteContainer.java:143-183 | a 201 POST with a Location, a 200 GET and a readable body make deploy succeed with the admin URL's host and port and exactly the body's routes, after open, POST, GET, close |
| `Container.DeployWithoutItemHasNoRoutes` | wls-remote-12.1.3/src/main/java/org/jboss/arquillian/container/wls/remote_12_1_3/RemoteContainer.java:152-176 | a 200 GET body without item makes deploy succeed with zero routes and the admin URL's host and port |
| `Container.DeployClosesOnlyOnSuccess` | wls-remote-12.1.3/src/main/java/org/jboss/arquillian/container/wls/remote_12_1_3/RemoteContainer.java:135-183 | the deploy client is closed if and only if deploy succeeds |
| `Container.DeployBrokenEntryFails` | wls-remote-12.1.3/src/main/java/org/jboss/arquillian/container/wls/remote_12_1_3/RemoteContainer.java:160-181 | one broken servlet entry makes deploy fail with the message "Failed to populate the HTTPContext with the deployment details" |
| `Container.UndeployDeletes` | wls-remote-12.1.3/src/main/java/org/jboss/arquillian/container/wls/remote_12_1_3/RemoteContainer.java:212-228 | undeploy sends one DELETE to the raw adminUrl + "/management/wls/latest/deployments/application/id/" + name; it closes the client before the status check; it fails if and only if the status is not 200 |
| `Container.UndeployBadUri` | wls-remote-12.1.3/src/main/java/org/jboss/arquillian/container/wls/remote_12_1_3/RemoteContainer.java:214-224 | a URI syntax error in undeploy fails with a DeploymentException whose message is "Deployment failed"; the client already built is never closed |
| `Container.DeployAndUndeployAgreeOnName` | wls-remote-12.1.3/src/main/java/org/jboss/arquillian/container/wls/remote_12_1_3/RemoteContainer.java:104-220 | undeploy's DELETE text is the raw adminUrl, the collection path, "/id/" and the name in deploy's POSTed model, so it ends in "/id/" + that name; deploy's URI is normalized and undeploy's is not |
| `Container.RemoteContainer.GetRestClient` | wls-remote-12.1.3/src/main/java/org/jboss/arquillian/container/wls/remote_12_1_3/RemoteContainer.java:186-197 | each call builds a fresh, open client |
| `Container.RemoteContainer.Populate` | wls-remote-12.1.3/src/main/java/org/jboss/arquillian/container/wls/remote_12_1_3/RemoteContainer.java:152-172 | the try block fills the context with exactly ExtractRoutes(body), in order, or reports that it threw, having only appended to the context |
| `Container.RemoteContainer.Deploy` | wls-remote-12.1.3/src/main/java/org/jboss/arquillian/container/wls/remote_12_1_3/RemoteContainer.java:101-183 | the server log, the remaining script and the result are those of DeployRun; on success the result is a fresh metadata object with one context |
| `Container.RemoteContainer.Undeploy` | wls-remote-12.1.3/src/main/java/org/jboss/arquillian/container/wls/remote_12_1_3/RemoteContainer.java:210-229 | the server log, the remaining script and the result are those of UndeployRun |
| `Rest.RestClient.Send` | wls-remote-12.1.3/src/main/java/org/jboss/arquillian/container/wls/remote_12_1_3/RemoteContainer.java:136-144 | a request is logged and answered with the next scripted response, or fails in transport when none is left |
| `Rest.RestClient.Close` | wls-remote-12.1.3/src/main/java/org/jboss/arquillian/container/wls/remote_12_1_3/RemoteContainer.java:176 | closing marks the client closed and is logged |
| `Config.WebLogicRemoteConfiguration.constructor` | wls-remote-12.1.3/src/main/java/org/jboss/arquillian/container/wls/remote_12_1_3/WebLogicRemoteConfiguration.java:16-20 | all four properties start out null |
| `Config.WebLogicRemoteConfiguration.Validate` | wls-remote-12.1.3/src/main/java/org/jboss/arquillian/container/wls/remote_12_1_3/WebLogicRemoteConfiguration.java:22-34 | passes if and only if all four properties are non-null and non-empty; the first failing property, in the order adminUrl, adminUserName, adminPassword, target, picks the message; no state changes |
| `Config.WebLogicRemoteConfiguration.SetAdminUrl` | wls-remote-12.1.3/src/main/java/org/jboss/arquillian/container/wls/remote_12_1_3/WebLogicRemoteConfiguration.java:36-46 | the getter then returns the new adminUrl; the other three properties are unchanged |
| `Config.WebLogicRemoteConfiguration.SetAdminUserName` | wls-remote-12.1.3/src/main/java/org/jboss/arquillian/container/wls/remote_12_1_3/WebLogicRemoteConfiguration.java:48-58 | the getter then returns the new user name; the other three properties are unchanged |
| `Config.WebLogicRemoteConfiguration.SetAdminPassword` | wls-remote-12.1.3/src/main/java/org/jboss/arquillian/container/wls/remote_12_1_3/WebLogicRemoteConfiguration.java:60-70 | the getter then returns the new password; the other three properties are unchanged |
| `Config.WebLogicRemoteConfiguration.SetTarget` | wls-remote-12.1.3/src/main/java/org/jboss/arquillian/container/wls/remote_12_1_3/WebLogicRemoteConfiguration.java:72-85 | the getter then returns the new target; the other three properties are unchanged |
| `Config.FreshConfigurationIsRejected` | wls-remote-12.1.3/src/main/java/org/jboss/arquillian/container/wls/remote_12_1_3/WebLogicRemoteConfiguration.java:17-24 | a freshly constructed configuration fails validate() with the adminUrl message |
| `Config.FullyConfiguredIsAccepted` | wls-remote-12.1.3/src/main/java/org/jboss/arquillian/container/wls/remote_12_1_3/WebLogicRemoteConfiguration.java:22-85 | after setting all four properties to non-empty strings, validate() passes |

The getters of `WebLogicRemoteConfiguration` and the constructor of `RemoteContainer` have no row. They only return or store a field. The setter rows state what the getters return.

## Left out

- `start()` and `stop()`: they are no-ops with no state.
- The logger and the Jersey logging filter: they have no effect on behaviour.
- HTTP transport: Basic authentication, the CSRF protection filter and the client features are not modelled. The server is a scripted list of responses. Null credentials are not modelled either, because their effect lies inside Jersey.
- The bytes of the multipart body: the request holds the JSON model and the archive name, not the encoded parts.
- `ShrinkWrapUtil.toFile`: it does file I/O that cannot be modelled here, and any failures it raises are left out with it.
- JSON text parsing (`readEntity`): the body arrives as a JSON tree. A body that is not an object stands for a body `readEntity(JsonObject.class)` cannot deliver.
- `java.net.URL`/`URI` parsing and `normalize()`: these are library code. They are the parameters `UrlLibrary.parseUrl` and `UrlLibrary.isUri`. Normalization is recorded as a flag on the URI and not computed.
- `response.toString()`: an unexpected-status failure carries the response itself, not Jersey's text for it.
- The Arquillian implementations of `Servlet`, `HTTPContext` and `ProtocolMetaData` are not modelled: the model's versions of these classes only store what they are given. The `Validate` class is not part of this model; `Validate.notNullOrEmpty` is taken to refuse exactly null and "".
- A relative undeploy URI such as "null/management/..." (from a null adminUrl) is answered by the scripted server like any other. What Jersey does with it is not modelled.
- Java strings are UTF-16 and Dafny strings are sequences of characters. Cutting at the first '.' gives the same name in both.
- Concurrency between calls is not modelled: each call builds its own client and the calls share no state.
- WebLogicTestableWarInEarTest is a test fixture that only assembles archives and is not part of this model.
