# Customer.io iOS SDK: endpoints and push-token enqueue rules in Dafny

This project models two sequential pieces of the Customer.io iOS SDK:

- **Endpoint resolution** (`HttpEndpoints`, file `http_endpoint.dfy`). This is the closed set of six tracking-API
  operations (`findAccountRegion`, `identifyCustomer`, `registerDevice`,
  `deleteDevice`, `trackCustomerEvent`, `pushMetrics`). For each operation the model gives its HTTP method and its path. The identifiers
  are interpolated verbatim. `GetUrlString` joins the tracking base URL and the path: an empty base gives `""`, and otherwise at most one trailing `/` is
  dropped from the base.
- **Push-token and metric rules of `MessagingPushImplementation`** (`MessagingPush`, file `messaging_push.dfy`). This is a class that holds the identified
  profile, the stored push token, the OS name and the sequence of tasks handed to the background queue.
  `RegisterDeviceToken` overwrites the stored token; `DeleteDeviceToken` and `TrackMetric` leave it unchanged. Each one appends zero or one typed task, by the rules the unit tests
  `Tests/MessagingPush/MessagingPushImplementationTest.swift` pin down.
  The implementation file of `MessagingPushImplementation` is not part of this model. Its behaviour is taken from those tests.
  The class invariant says that every queued task carries the tag of its payload, so the runner that tag names can decode it.
- `Wrappers.Option` stands for Swift optionals.

Three consequences of the code are worth stating:
- Identifiers are put into paths as given, without percent-encoding. `IdentifyCollidesWithRegisterDevice` and
  `DeleteDevicePathAmbiguous` prove what that allows.
- An empty base URL gives the empty string, not an error.
- A base URL that ends in `/` loses only that one slash. So for a non-empty `b`, `b + "/"` and `b` give the same URL exactly when `b` does not
  itself end in `/` (`TrailingSlashIgnored`, `TrailingSlashKeptWhenDoubled`, `OnlyOneSlashDropped`).

## Model

| member | source | states |
|---|---|---|
| HttpEndpoints.Path | Sources/Common/Service/HttpEndpoint.swift:11-20 | every path is non-empty and starts with `/`; a customer path is `/api/v1/customers/` + identifier + a suffix that is `""`, `/devices`, `/devices/` + token or `/events`; findAccountRegion's path is `/api/v1/accounts/region` and pushMetrics' path is `/push/events` |
| HttpEndpoints.Method | Sources/Common/Service/HttpEndpoint.swift:23-31 | GET exactly for findAccountRegion, PUT exactly for identifyCustomer and registerDevice, DELETE exactly for deleteDevice, POST exactly for trackCustomerEvent and pushMetrics |
| HttpEndpoints.DropTrailingSlash | Sources/Common/Service/HttpEndpoint.swift:47-49 | a string ending in `/` loses exactly that one character; any other string is unchanged |
| HttpEndpoints.GetUrlString | Sources/Common/Service/HttpEndpoint.swift:40-52 | an empty base gives `""`; otherwise the URL is the base minus at most one trailing `/` followed by the path, with length `\|base\| - (1 if base ends in "/") + \|path\|` |
| HttpEndpoints.NonEmptyBaseGivesPathSuffix | Sources/Common/Service/HttpEndpoint.swift:44-51 | a non-empty base yields a non-empty URL ending with the endpoint's path |
| HttpEndpoints.TrailingSlashIgnored | Sources/Common/Service/HttpEndpoint.swift:47-51 | for a non-empty base not ending in `/`, appending one `/` leaves the URL unchanged and the URL is exactly base + path |
| HttpEndpoints.TrailingSlashKeptWhenDoubled | Sources/Common/Service/HttpEndpoint.swift:47-51 | for a base already ending in `/`, appending another `/` changes the URL |
| HttpEndpoints.OnlyOneSlashDropped | Sources/Common/Service/HttpEndpoint.swift:47-49 | a base ending in `//` keeps one `/` before the path |
| HttpEndpoints.SameUrlIffSamePath | Sources/Common/Service/HttpEndpoint.swift:40-52 | for one non-empty base, two endpoints share a URL if and only if they share a path |
| HttpEndpoints.IdentifierInsertedVerbatim | Sources/Common/Service/HttpEndpoint.swift:14-18 | the identifier appears unmodified right after `/api/v1/customers/` in every customer path |
| HttpEndpoints.SingleIdentifierPathInjective | Sources/Common/Service/HttpEndpoint.swift:14-18 | for identifyCustomer, registerDevice and trackCustomerEvent, two endpoints of the same operation share a path if and only if they are equal |
| HttpEndpoints.IdentifyCollidesWithRegisterDevice | Sources/Common/Service/HttpEndpoint.swift:14-15 | identifyCustomer with identifier `id + "/devices"` has the same method and path as registerDevice with `id` |
| HttpEndpoints.DeleteDevicePathAmbiguous | Sources/Common/Service/HttpEndpoint.swift:16-17 | two different deleteDevice endpoints can share a path, because the identifier/token boundary is not encoded |
| MessagingPush.RawValue | Tests/MessagingPush/MessagingPushImplementationTest.swift:58 | each task type has its own tag: `registerPushToken`, `deletePushToken` or `trackPushMetric` (also used at :129 and :150) |
| MessagingPush.ParseTaskType | Tests/MessagingPush/MessagingPushImplementationTest.swift:58-60 | the raw-value initializer of the push module's task-type enum: a tag parses to a task type exactly when it is one of the three push tags, and then to the type whose tag it is; any other tag gives none (the tracking runner applies the same kind of initializer to its own two-case enum) |
| MessagingPush.TaskTypeRoundTrip | Tests/MessagingPush/MessagingPushImplementationTest.swift:58 | parsing a task type's raw tag gives that type back, and only that tag parses to it |
| MessagingPush.TaskOf | Tests/MessagingPush/MessagingPushImplementationTest.swift:58-60 | the task built for a payload keeps the payload and carries the tag of the payload's type |
| MessagingPush.RegisterTask | Tests/MessagingPush/MessagingPushImplementationTest.swift:34-83 | a registration task exists exactly when a profile is identified and the OS name is known; it is tagged `registerPushToken` and carries the profile, the token, platform = OS name, lastUsed = now and the default attributes |
| MessagingPush.DeleteTask | Tests/MessagingPush/MessagingPushImplementationTest.swift:88-134 | a deletion task exists exactly when a profile is identified and a push token is stored; it is tagged `deletePushToken` and carries both unchanged |
| MessagingPush.MetricTask | Tests/MessagingPush/MessagingPushImplementationTest.swift:141-156 | the metric task is tagged `trackPushMetric` and carries the delivery id, event and device token given |
| MessagingPush.Enqueued | Tests/MessagingPush/MessagingPushImplementationTest.swift:40 | zero or one task: none when there is no task, exactly that task otherwise |
| MessagingPush.MessagingPushImplementation.constructor | Tests/MessagingPush/MessagingPushImplementationTest.swift:19-30 | starts with the given profile, stored token and OS name, and an empty queue |
| MessagingPush.MessagingPushImplementation.RegisterDeviceToken | Tests/MessagingPush/MessagingPushImplementationTest.swift:34-83 | always stores the token; appends the registration task only when a profile is identified and the OS name is known; keeps every queued task well-tagged |
| MessagingPush.MessagingPushImplementation.DeleteDeviceToken | Tests/MessagingPush/MessagingPushImplementationTest.swift:88-137 | never changes the stored token; appends a deletion task only when a profile is identified and a token is stored, otherwise leaves the queue untouched |
| MessagingPush.MessagingPushImplementation.TrackMetric | Tests/MessagingPush/MessagingPushImplementationTest.swift:141-157 | always appends exactly one metric task with the given delivery id, event and token; changes nothing else |
| MessagingPush.RegisterThenDelete | Tests/MessagingPush/MessagingPushImplementationTest.swift:44-137 | with a profile identified and the OS name known, register then delete enqueues a registration and a deletion of the same token for the same profile, and the token stays stored |
| MessagingPush.AnonymousTokenChanges | Tests/MessagingPush/MessagingPushImplementationTest.swift:34-41 | without an identified profile, from any stored token and any OS name, any sequence of register and delete calls enqueues nothing and leaves stored the last registered token, or the initial one when none was registered |

## Left out

- `HttpEndpoint.getUrl` (Sources/Common/Service/HttpEndpoint.swift:36-38) is left out because it parses through Foundation's `URL(string:)`, which is a foreign library call.
- `HttpBaseUrls.getProduction` is left out. It reads `Region.productionTrackingUrl`, and `Region` is not part of this model.
- Swift `String.last` compares grapheme clusters. The model works on `seq<char>`, and only the trailing `/` test depends on this.
- The JSON encoding of the registration request (`RegisterDeviceRequest`, `StringAnyEncodable`) is left out. The task payload is modelled as the `Device`
  record that would be encoded: token, platform, lastUsed and the default attributes.
- The clock and the asynchronous device-attributes provider are not modelled. They become the `now` and `defaultAttributes` parameters of `RegisterDeviceToken`.
- The `QueueStatus` that the background queue returns from adding a task is not modelled. The model records only the tasks handed to the queue.
- The background queue, task store, runners and HTTP client are not part of this model. This includes the dispatch in `TrackingQueueRunner.runTask`
  (Sources/Tracking/Background Queue/QueueRunner.swift).
- `Atomic` (Sources/Tracking/Util/Atomic.swift) is a lock-guarded cell. Modelled sequentially it only stores and returns a value, so thread exclusion is left out.
- The dependency-injection wiring (Tests/Common/DITests.swift) is not part of this model.
- RawValue: the push module's task-type enum is not part of this model. Its raw values are taken to be the case names, which is Swift's default for a String-backed enum; the tests compare tags only against `.rawValue`.
- `Metric`'s definition is not part of this model. The model uses the three metrics the SDK reports: delivered, opened and converted.
