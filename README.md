# inlive-file-manager: storage operations and authorization

A model of the two pieces of decision logic in the inlive file manager, an HTTP
gateway that stores files in an S3 bucket under `directory/filename` keys.

- **Storage** (`storage.dfy`, module `Storage`): the bucket is a class whose field
  `objects` maps each key to the stored bytes, content type and user metadata.
  `StorageService` carries the four operations as methods over it.
  - `UploadFile` can generate a name: a fresh UUID followed by the client name's extension.
  - It builds the key `directory + "/" + name`, takes the probed content type or
    `application/octet-stream`, attaches the metadata `filename`, `content-type`
    and `content-length`, and puts the object.
  - `GetFile` returns the bytes and the content type. A missing or blank type comes
    back as `application/octet-stream`. A missing key or any failure gives nothing.
  - `DeleteFile` removes one key and reports success whether or not the key existed.
  - `DeleteFolder` ends the folder name with `/` and takes one page of keys that the
    store listed under that prefix. When the page is not empty it sends one batch
    delete of exactly those keys.

  The store's answers are parameters: a `Reply`, `Probe`, `Listing` or `BatchReply`
  is either "done" or "threw this exception". So are the content-type probe and the
  random identifier. The model states what the service does with each answer.
- **Authorization** (`security.dfy`, module `Security`): a path-pattern matcher with
  `*`, literal and `**` elements, and the rule table. The table requires authority
  `ADMIN` for `/*/remove/**` and `/*/upload/**` and permits every other request.
  Then comes the converter from a verified token's claims to authorities, which reads
  `resource_access[clientId].roles`, and the decision for a request.
- **Helpers** (`text.dfy`, `wrappers.dfy`): the Java string operations the service
  relies on (`lastIndexOf`, `endsWith`, `isBlank`, `String.valueOf(long)`), and
  Option/Result.

Where the code departs from the gateway's documented design, the model follows the code:
- Authorities are a list in claim order with duplicates kept, not a set.
- A missing `resource_access` claim, or a client entry without `roles`, makes the
  converter throw. This is not an empty role set. The request is then rejected
  (`ClaimsRejected`) on every path, because conversion runs on any request that
  carries a token.
- The folder-delete route is not gated (see Findings).

## Model

| member | source | states |
|---|---|---|
| Text.LastIndexOf | src/main/java/kz/ai/lab/inlivefilemanager/services/StorageService.java:48 | -1 exactly when the character does not occur; otherwise a position holding it with no occurrence after it |
| Text.DecimalText | src/main/java/kz/ai/lab/inlivefilemanager/services/StorageService.java:66 | the content length's text is a non-empty string of decimal digits without a leading zero: it starts with `0` only when it is exactly `0`, which is the text of zero |
| Text.ParseDecimalText | src/main/java/kz/ai/lab/inlivefilemanager/services/StorageService.java:66 | the content-length text reads back as the byte count it was made from |
| Storage.ExtensionOf | src/main/java/kz/ai/lab/inlivefilemanager/services/StorageService.java:47-51 | the extension is a suffix of the name; it is empty exactly when the name has no `.`; otherwise it starts with `.` and holds no other `.` |
| Storage.StorageKey | src/main/java/kz/ai/lab/inlivefilemanager/services/StorageService.java:61 | the key is the directory, one `/`, then the file name, and nothing else |
| Storage.EffectiveName | src/main/java/kz/ai/lab/inlivefilemanager/services/StorageService.java:46-54 | without generation the name is unchanged; with it the name is exactly the UUID followed by the client name's extension, so it starts with the UUID and has the same extension as the client's name |
| Storage.GeneratedNameKeepsExtension | src/main/java/kz/ai/lab/inlivefilemanager/services/StorageService.java:47-52 | an identifier with no `.`, followed by an extension, has exactly that extension |
| Storage.StorageKeyInjective | src/main/java/kz/ai/lab/inlivefilemanager/services/StorageService.java:61 | for directories without `/`, two keys are equal iff their directories and file names are |
| Storage.FolderPrefix | src/main/java/kz/ai/lab/inlivefilemanager/services/StorageService.java:120 | the prefix ends with `/`, extends the folder name by at most that `/`, and is the name itself when the name already ends with `/` |
| Storage.FolderPrefixIdempotent | src/main/java/kz/ai/lab/inlivefilemanager/services/StorageService.java:120 | normalising a normalised prefix leaves it unchanged |
| Storage.UploadedKeyUnderFolderPrefix | src/main/java/kz/ai/lab/inlivefilemanager/services/StorageService.java:117-127 | every key an upload into a directory writes starts with the prefix that deleting that folder lists |
| Storage.ContentLengthReadsBack | src/main/java/kz/ai/lab/inlivefilemanager/services/StorageService.java:63-66 | the metadata's content-length is all digits and parses to the number of bytes stored |
| Storage.UploadMetadataUnique | src/main/java/kz/ai/lab/inlivefilemanager/services/StorageService.java:63-66 | the upload's metadata is determined: two maps that both hold exactly `filename`, `content-type` and `content-length` with the upload's values are equal |
| Storage.UploadFailureMessage | src/main/java/kz/ai/lab/inlivefilemanager/services/StorageService.java:82-92 | an S3 failure reports `Could not obtain the keys`; a read failure reports `Failed to read file content: ` and an other failure `Failed to upload file: `, each followed by the exception's message |
| Storage.TypeOnFetch | src/main/java/kz/ai/lab/inlivefilemanager/services/StorageService.java:167-170 | the reported type is never blank; it is the stored type whenever that is present and not blank, and `application/octet-stream` when it is missing or blank |
| Storage.Fetch | src/main/java/kz/ai/lab/inlivefilemanager/services/StorageService.java:156-181 | a blob comes back iff the request succeeds and the key exists; it holds the stored bytes, and the stored type when that is present and not blank, otherwise `application/octet-stream` |
| Storage.FetchAfterPut | src/main/java/kz/ai/lab/inlivefilemanager/services/StorageService.java:158-175 | fetching a key just put gives the bytes put, and the type put unless it was blank |
| Storage.StorageService.UploadFile | src/main/java/kz/ai/lab/inlivefilemanager/services/StorageService.java:34-93 | succeeds iff reading, probing and the put all succeed; then it returns the effective name, and key `directory/name` alone changes, to the bytes read, the probed type or octet-stream, and the three metadata entries; on any failure it returns the exception's message and the bucket is unchanged |
| Storage.StorageService.GetFile | src/main/java/kz/ai/lab/inlivefilemanager/services/StorageService.java:156-182 | returns a blob iff the request succeeds and the key exists, with the stored bytes and the stored type, or octet-stream when that type is missing or blank; reads only |
| Storage.StorageService.DeleteFile | src/main/java/kz/ai/lab/inlivefilemanager/services/StorageService.java:95-115 | on success only key `directory/filename` is removed, present or not, and the message is `File [f] deleted successfully`; a thrown failure leaves the bucket and gives `Unable to delete file: f` |
| Storage.StorageService.DeleteFolder | src/main/java/kz/ai/lab/inlivefilemanager/services/StorageService.java:117-154 | an empty page sends no batch and reports success; otherwise one batch of exactly the listed keys is sent, and exactly those keys the store did not refuse are removed; unlisted keys, and in particular every key outside the folder, are untouched |
| Storage.UploadThenFetch | src/main/java/kz/ai/lab/inlivefilemanager/services/StorageService.java:158-175 | fetching the name an upload returned gives back the bytes uploaded and the stored content type |
| Security.AnySegmentsMatchesAll | src/main/java/kz/ai/lab/inlivefilemanager/config/SecurityConfig.java:51-52 | a trailing `**` matches any remainder, including none |
| Security.SecondSegmentPattern | src/main/java/kz/ai/lab/inlivefilemanager/config/SecurityConfig.java:51-52 | `/*/lit/**` matches a path iff it has a non-empty first segment and `lit` as second segment |
| Security.RequiredAccess | src/main/java/kz/ai/lab/inlivefilemanager/config/SecurityConfig.java:49-55 | with no matching rule the access is `PermitAll`; otherwise it is the access of some rule whose pattern matches |
| Security.FirstMatchDecides | src/main/java/kz/ai/lab/inlivefilemanager/config/SecurityConfig.java:49-55 | rules are tried in declaration order: the first rule whose pattern matches the path decides its access |
| Security.RulesGateRemoveAndUpload | src/main/java/kz/ai/lab/inlivefilemanager/config/SecurityConfig.java:49-55 | the table demands `ADMIN` iff the second segment is `remove` or `upload` (first segment non-empty) and permits every other path |
| Security.RuleOrderIrrelevant | src/main/java/kz/ai/lab/inlivefilemanager/config/SecurityConfig.java:51-52 | swapping the two rules changes no path's required access |
| Security.RoleAuthorities | src/main/java/kz/ai/lab/inlivefilemanager/config/SecurityConfig.java:101-103 | succeeds iff every role is a string with text; then one authority per role, same order; otherwise fails at the first bad role |
| Security.Authorities | src/main/java/kz/ai/lab/inlivefilemanager/config/SecurityConfig.java:85-104 | a missing or null `resource_access` fails; no or a null client entry gives no authorities; a client entry without `roles` fails; every authority granted has text; a success means `resource_access` is an object and, when the client entry is present and not null, that the entry is an object whose `roles` is exactly the granted list of strings, so every other shape (non-object claim or entry, null or non-list `roles`, a non-string or blank role) fails |
| Security.NoClientEntryNoAuthorities | src/main/java/kz/ai/lab/inlivefilemanager/config/SecurityConfig.java:87-90 | no entry for the client id gives the empty authority list |
| Security.AuthoritiesAreRoles | src/main/java/kz/ai/lab/inlivefilemanager/config/SecurityConfig.java:94-103 | with a well-formed entry the authorities are exactly its roles list, order and duplicates kept |
| Security.MalformedClaimsFail | src/main/java/kz/ai/lab/inlivefilemanager/config/SecurityConfig.java:86-96 | a missing `resource_access`, or a client entry without `roles`, is a failure and not an empty list |
| Security.Decide | src/main/java/kz/ai/lab/inlivefilemanager/config/SecurityConfig.java:49-55 | a token whose claims do not convert is rejected with the converter's fault; an open path is permitted iff there is no token or it converts; a gated path is permitted iff a token converts to authorities containing the required one; it gives unauthenticated with no token and forbidden for a token that converts without that authority |
| Security.PermittedIff | src/main/java/kz/ai/lab/inlivefilemanager/config/SecurityConfig.java:49-55 | a request goes through iff its token, if any, converts, and the path is open or the authorities contain `ADMIN` |
| Security.OpenPathsNeedNoToken | src/main/java/kz/ai/lab/inlivefilemanager/config/SecurityConfig.java:53-54 | every path outside the two patterns is permitted with no token |
| Security.NoClientEntryForbidden | src/main/java/kz/ai/lab/inlivefilemanager/config/SecurityConfig.java:87-90 | a token with no entry for the client is forbidden on every gated path |
| Security.RouteAccess | src/main/java/kz/ai/lab/inlivefilemanager/routers/FileRouter.java:36-39 | upload and file delete need `ADMIN` (no token: unauthenticated); retrieve and `/remove/folders/{directory}` are permitted with no token |
| Security.GuardedRulesGateEveryMutation | src/main/java/kz/ai/lab/inlivefilemanager/config/SecurityConfig.java:51-54 | with a `/remove/folders/**` rule added, all three mutating routes need `ADMIN` and retrieve stays open |

## Left out

- The S3 SDK (requests, responses, credentials, region) is a foreign library. The bucket is a map field, and each call's outcome is a parameter. The bucket name is carried but plays no part.
- `Files.probeContentType` and `UUID.randomUUID` are foreign or random. The probe is a function parameter, and the identifier is a parameter that must have the 8-4-4-4-12 lower-case hex form of a UUID's text. Collisions between identifiers are not modelled.
- Storage.StorageService.DeleteFolder: the listing page is a parameter. It is required to hold only keys under the prefix, as S3's listing guarantees. It need not hold every key under the prefix, since S3 returns at most 1000 keys per page, and it is not tied to the bucket's contents. A batch delete that throws is modelled as removing nothing, though the store may already have removed some keys.
- Storage.StorageService.UploadFile: a put that throws is modelled as storing nothing. A store that kept the object before the failure was reported is not modelled.
- Storage.StorageService.DeleteFile: a delete that throws is modelled as removing nothing, for the same reason.
- S3's own treatment of user metadata (the `x-amz-meta-` prefix, lower-casing, size limits) is not modelled; the metadata map is stored as given.
- Null directory or file names are not modelled. The router always passes non-null path variables and part names.
- The upload handler in the file router is not modelled. It reads the multipart body, uploads parts concurrently through `Flux.flatMap`, drops blank names and collects the results. Result order then depends on completion order. Only its route table is used, as paths.
- `CodecsConfig` and `StorageConfig` are configuration and wiring with no logic of their own. Also left out: the CORS filter, CSRF/CORS disabling, and JWT signature, issuer and expiry checks. Spring Security performs those.
- Turning a request URL into segments (decoding, repeated or trailing `/`) is not modelled; a path is its list of segments. The HTTP method plays no part in the rules and is not modelled.
- JSON numbers in claims are integers only. Their exact value never matters, because any non-string role fails.
- Logging is diagnostic only.

## Findings

| source | as written | input that shows it | evidently intended | confidence | as-written member | corrected member |
|---|---|---|---|---|---|---|
| src/main/java/kz/ai/lab/inlivefilemanager/config/SecurityConfig.java:51-54 | only `/*/remove/**` and `/*/upload/**` need `ADMIN`. The folder-delete route `/remove/folders/{directory}` has `folders` as second segment, so it falls to `permitAll`. | `DELETE /remove/folders/photos` with no token is permitted and deletes the folder | deleting a folder needs `ADMIN`, like deleting a file | not executed; the matching is certain, the intent is inferred from the other mutating routes being gated | Security.RouteAccess | Security.GuardedRulesGateEveryMutation |
