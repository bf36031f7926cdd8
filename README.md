# Bencher core, modelled in Dafny

This project models nine pieces of the Bencher continuous-benchmarking system and proves properties of them:

- **Studio modeler** (`client/src/components/studio/modeler/modeler.tsx`). An in-memory catalog of flows. A flow has subflows, and each subflow holds lines of element ids and the elements themselves. The component keeps two pieces of state: the selected flow and the selected subflow id. `ModelerStore` is a class with those two fields. Its methods are the three handlers and the mount effect. An edit replaces one element's `value` in a deep copy made by `JSON.parse(JSON.stringify(flow))`. That copy is modelled over untyped JavaScript values (`JsValues`). The render pass is a pure function that lists one slot per element id, line after line.
- **Licensor** (`plus/bencher_license/src/licensor.rs`). Bencher Cloud issues licenses: monthly or annual ES256-signed JSON Web Tokens (RFC 7519). Every licensor can check them: the signature, the audience, the issuer, the expiry, the subject organization and the usage entitlements. Signing is symbolic. A key belongs to a numbered key pair, and a decoding key accepts exactly the signatures of its own pair.
- **Organization roles and permissions** (`services/lib/bencher_rbac/src/organization.rs`). The strings that roles and permissions display as, and the role parser.
- **Alerts** (`services/api/src/model/project/threshold/alert.rs`). The three-way encoding of an alert's side: `bool`, `Side` and `JsonSide`. Also the conversion of a stored alert to JSON, which reports the threshold with the alert's own statistic.
- **Magic adapter** (`lib/bencher_adapter/src/adapters/magic.rs`). Nine benchmark-output parsers tried in a fixed order; the first result wins.
- **Onboarding steps** (`services/console/src/components/console/onboard/OnboardSteps.tsx`). Five numbered steps and their pages, with the plan carried as a query parameter. A marker is lit once the user has reached its step.
- **Statistic records** (`services/api/src/model/project/threshold/statistic.rs`). The field-preserving conversions between the stored, the insertable and the JSON forms of a threshold statistic.
- **File-size runner** (`services/cli/src/bencher/sub/project/run/runner/file_size.rs`). The list of paths displays joined by ", ". `get_results` measures one file per path, stops at the first failure, and serialises the results. It is an imperative loop, proved against a recursive specification.
- **Organization console routes** (`services/ui/src/components/console/config/organizations.tsx`). The redirect taken when the list holds a single organization, and the URLs and paths the list and view pages build.

Each source file is one module, except `modeler.tsx`: its untyped values and their deep copy are the module `JsValues`, and the rest is `Modeler`. `wrappers.dfy` holds `Option` and `Result`. Outside collaborators become parameters: the clock, PEM files, database queries, the individual language parsers, name parsing, file metadata, serialisation and `viewSlugPath`. Uninterpreted ones are arrow-typed fields or arguments.

## Model

| member | source | states |
|---|---|---|
| JsValues.Truthy | client/src/components/studio/modeler/modeler.tsx:116 | A value is truthy exactly when it is not `undefined`, `null`, `false`, `0` or `""`; empty arrays and objects are truthy |
| JsValues.Defined | client/src/components/studio/modeler/modeler.tsx:117 | The stringified object keeps exactly the members that are not `undefined`, and no more members than it had; a single member is dropped exactly when it is `undefined`; an object with no `undefined` member is kept whole |
| JsValues.DefinedAppend | client/src/components/studio/modeler/modeler.tsx:117 | The members kept from two runs of members are those kept from the first followed by those kept from the second, so the defined members survive in their order |
| JsValues.Copy | client/src/components/studio/modeler/modeler.tsx:117 | The deep copy keeps a value's kind: an array stays an array of the same length, an object stays an object with no more members, and every other value is unchanged |
| JsValues.CopyContents | client/src/components/studio/modeler/modeler.tsx:117 | The copy of an object holds exactly its defined members, in order, each with its value copied; every defined member appears in it; the copy of an array holds every item copied, with `undefined` items turned into `null` |
| JsValues.CopyExamples | client/src/components/studio/modeler/modeler.tsx:117 | `{a: 1, b: undefined}` copies to `{a: 1}`, and `[undefined, 2]` to `[null, 2]` |
| JsValues.CopyKeepsTruthiness | client/src/components/studio/modeler/modeler.tsx:116-118 | The deep copy keeps every value's truthiness, and keeps a value `undefined` exactly when it was, so the guard reads the same on the copy |
| JsValues.CopyFixesNormal | client/src/components/studio/modeler/modeler.tsx:117 | A value with no `undefined` anywhere inside is its own deep copy |
| JsValues.CopyIsNormal | client/src/components/studio/modeler/modeler.tsx:117 | Every deep copy is free of `undefined` |
| JsValues.CopyIdempotent | client/src/components/studio/modeler/modeler.tsx:117 | Copying a copy changes nothing |
| Modeler.LookupFlow | client/src/components/studio/modeler/modeler.tsx:102 | `flows?.[id]` gives a flow exactly when the id is a key and its entry is not `null` |
| Modeler.MainOf | client/src/components/studio/modeler/modeler.tsx:103 | `?.main` is present exactly when the flow is, and is that flow's main subflow |
| Modeler.CurrentSubflow | client/src/components/studio/modeler/modeler.tsx:115-116 | `flow?.subflows?.[subflow]` is present exactly when there is a flow, a subflow id, and that id is a key of its subflows |
| Modeler.LookupElement | client/src/components/studio/modeler/modeler.tsx:116 | An element lookup succeeds exactly for the keys of `elements` |
| Modeler.ResolveElementId | client/src/components/studio/modeler/modeler.tsx:114-115 | The location resolves to an id exactly when the subflow exists and both indices are in range; the id is the one stored there |
| Modeler.Updatable | client/src/components/studio/modeler/modeler.tsx:114-116 | The corrected guard holds exactly when the location resolves to an id, that id is a key of the subflow's elements, and that element's value is truthy (see also UpdatableOnlyInRange and EditThenRead) |
| Modeler.CopyFlow | client/src/components/studio/modeler/modeler.tsx:117 | The deep copy keeps the flow's id, main, subflow keys, every subflow's lines and every subflow's element keys |
| Modeler.ModelerStore.constructor | client/src/components/studio/modeler/modeler.tsx:123-128 | After mounting with `id`, the flow is the catalog's entry for `id` (none for a missing or `null` entry) and the subflow is its main |
| Modeler.ModelerStore.HandleFlow | client/src/components/studio/modeler/modeler.tsx:101-104 | Selecting a flow id sets the flow to its catalog entry and the subflow to that flow's main; a missing or `null` entry leaves both undefined, without an error |
| Modeler.ModelerStore.HandleSubflow | client/src/components/studio/modeler/modeler.tsx:106-108 | Stores the subflow id as given and leaves the flow alone |
| Modeler.ModelerStore.HandleElement | client/src/components/studio/modeler/modeler.tsx:110-121 | With the corrected guard (see Findings): when an in-range location addresses an element whose value is truthy, the flow becomes the deep copy with that element's value replaced; otherwise the flow is unchanged; the subflow is never touched |
| Modeler.Layout | client/src/components/studio/modeler/modeler.tsx:136-159 | Without a selected subflow the render pass yields nothing |
| Modeler.UpdatedFlow | client/src/components/studio/modeler/modeler.tsx:117-118 | The edited copy has the same subflows and element keys, and the addressed element holds the new value with its other fields kept |
| Modeler.EditedFlow | client/src/components/studio/modeler/modeler.tsx:110-121 | The edit with the corrected guard keeps a flow present exactly when it was, changes it only when the guard holds, and then keeps its subflow keys |
| Modeler.ModelerStore.Render | client/src/components/studio/modeler/modeler.tsx:136-159 | The store renders nothing without a selected subflow, and otherwise only slots at in-range locations of its lines |
| Modeler.LayoutEnumeratesSlots | client/src/components/studio/modeler/modeler.tsx:136-159 | The render pass yields one item per element id of the selected subflow: each item is the slot of its own in-range location, every in-range location occurs, and locations strictly increase line by line |
| Modeler.LayoutEmptyWithoutSubflow | client/src/components/studio/modeler/modeler.tsx:136 | Without a selected subflow nothing is rendered |
| Modeler.PriorIsPreviousItem | client/src/components/studio/modeler/modeler.tsx:148-153 | The prior is `null` exactly at position 0; elsewhere it is the element of the item rendered just before, on the same line |
| Modeler.CopyFlowFixesNormal | client/src/components/studio/modeler/modeler.tsx:117 | A flow whose element values hold no `undefined` is its own deep copy |
| Modeler.UpdatedFlowFrame | client/src/components/studio/modeler/modeler.tsx:117-118 | An edit keeps the flow's id and main subflow, every subflow's lines and element keys, and every other element as its deep copy; the addressed element gets the new value and keeps its other fields |
| Modeler.UpdateChangesOnlyTheValue | client/src/components/studio/modeler/modeler.tsx:117-118 | On a flow that JSON carries unchanged, an edit changes exactly one element's value and nothing else |
| Modeler.EditThenRead | client/src/components/studio/modeler/modeler.tsx:114-119 | After an edit, the same location resolves to the same id and reads the edited element with the new value |
| Modeler.EditNoOps | client/src/components/studio/modeler/modeler.tsx:114-116 | No subflow, a line out of range, a position out of range, an id with no element, or a falsy current value each leave the flow as it was |
| Modeler.ElementKeyAsWritten | client/src/components/studio/modeler/modeler.tsx:114-116 | The key the handler's lookup reads exists exactly when there is a subflow; it is the resolved id inside the lines and "undefined" outside them |
| Modeler.UpdatableAsWritten | client/src/components/studio/modeler/modeler.tsx:114-116 | The guard as written agrees with the corrected one whenever the location is inside the lines (or there is no subflow), and holds only when there is a subflow |
| Modeler.AsWrittenGuardDiffers | client/src/components/studio/modeler/modeler.tsx:114-116 | The guard as written differs from the intended one exactly when the location is out of range and the subflow has a truthy element keyed "undefined" |
| Modeler.EditedFlowAsWritten | client/src/components/studio/modeler/modeler.tsx:110-121 | The handler as written keeps a flow present exactly when it was and changes it only when its own guard holds, writing to whatever key its lookup read |
| Modeler.AsWrittenEditInRange | client/src/components/studio/modeler/modeler.tsx:114-118 | For locations inside the lines, the handler as written and the corrected edit agree |
| Modeler.AsWrittenEditOutOfRange | client/src/components/studio/modeler/modeler.tsx:114-118 | Outside the lines the corrected edit does nothing, while the handler as written sets the value of a truthy element keyed "undefined" |
| Modeler.OutOfRangeEditHitsUndefinedKey | client/src/components/studio/modeler/modeler.tsx:114-118 | A concrete subflow where an edit at line 3 of a one-line subflow passes the guard as written but not the intended one: the corrected edit leaves the flow alone, and the edit as written sets the value of the element keyed "undefined" |
| Modeler.UpdatableOnlyInRange | client/src/components/studio/modeler/modeler.tsx:114-116 | The guard the model uses holds only for locations inside the selected subflow's lines |
| Modeler.ExampleIsWellFormed | client/src/components/studio/modeler/modeler.tsx:14-31 | In the example subflow every id on a line names an element and a return element exists; dropping `e0` breaks this |
| Modeler.ExampleIsNormal | client/src/components/studio/modeler/modeler.tsx:5-89 | No element value of the example catalog holds `undefined`, so the deep copy leaves it unchanged |
| Modeler.ExampleSelection | client/src/components/studio/modeler/modeler.tsx:87-104 | Selecting "a" loads subflow "a1"; the `null` entries "b" and "c" and every other id load nothing |
| Modeler.ExampleLayout | client/src/components/studio/modeler/modeler.tsx:136-159 | The example renders e1, e2, e3, e4 on line 0 and e0 on line 1, each with its prior |
| Modeler.ExampleEmptyObjectsAreEditable | client/src/components/studio/modeler/modeler.tsx:25-38 | The `{}` values of e0 and e1 are truthy, so both elements can be edited |
| License.EncodingKeyOf | plus/bencher_license/src/licensor.rs:138-140 | Only a private EC PEM gives a signing key, of that key pair; anything else is `PrivatePem` |
| License.DecodingKeyOf | plus/bencher_license/src/licensor.rs:142-144 | Only a public EC PEM gives a checking key, of that key pair; anything else is `PublicPem` |
| License.NewSelfHosted | plus/bencher_license/src/licensor.rs:31-34 | A self-hosted licensor is built exactly when the bundled public PEM parses, and holds its key |
| License.NewBencherCloud | plus/bencher_license/src/licensor.rs:36-40 | Bencher Cloud is built exactly when both PEMs parse; a bad private PEM is reported first |
| License.Encoding | plus/bencher_license/src/licensor.rs:42-47 | Only Bencher Cloud has a signing key; a self-hosted licensor answers `SelfHosted` |
| License.Decoding | plus/bencher_license/src/licensor.rs:49-53 | Both kinds of licensor check with the decoding key they were built with |
| License.NewClaims | plus/bencher_license/src/licensor.rs:201-208 | Reconstructed from the test suite's assertions: the claims name Bencher as audience and issuer, the organization and the entitlements, are issued now and expire one billing cycle later; only the clock can fail |
| License.NewLicense | plus/bencher_license/src/licensor.rs:55-65 | A license is issued exactly when the clock is valid and the licensor is Bencher Cloud; the clock error comes first, then `SelfHosted`; the token has the ES256 header, the new claims and its own pair's signature |
| License.NewMonthlyLicense | plus/bencher_license/src/licensor.rs:67-78 | Issued exactly under the same conditions, for audience Bencher, issued now and expiring one month later |
| License.NewAnnualLicense | plus/bencher_license/src/licensor.rs:80-91 | Issued exactly under the same conditions, for audience Bencher, issued now and expiring one year later |
| License.Now | plus/bencher_license/src/licensor.rs:158-160 | The clock gives an unsigned timestamp exactly when it is not before 1970 |
| License.Decode | plus/bencher_license/src/licensor.rs:94-99 | A decoded token is a well-formed token whose algorithm is allowed, whose signature is its own pair's over its header and claims, and whose audience and issuer are allowed |
| License.CheckExpiration | plus/bencher_license/src/licensor.rs:146-156 | A license passes exactly when the clock is valid and not past `exp`; past it, the error is `ExpiredSignature` |
| License.Validate | plus/bencher_license/src/licensor.rs:93-103 | A license is valid exactly when it decodes under the licensor's key and has not expired; its audience and issuer are then Bencher and its algorithm ES256 |
| License.ValidateOrganization | plus/bencher_license/src/licensor.rs:105-119 | A license validates for an organization exactly when it is valid and its subject is that organization; otherwise the error is `Subject` with both ids, or the validation error |
| License.ValidateUsage | plus/bencher_license/src/licensor.rs:121-135 | Usage passes exactly when it does not exceed the entitlements, which are returned; otherwise the error carries both numbers |
| License.DecodeEncode | plus/bencher_license/src/licensor.rs:93-103 | Decoding with the matching key gives back the header and the claims that were encoded |
| License.DecodeRefusesOtherPair | plus/bencher_license/src/licensor.rs:99 | A token signed by one key pair is refused by another pair's key with `InvalidSignature` |
| License.SelfHostedCannotIssue | plus/bencher_license/src/licensor.rs:175-187 | A self-hosted licensor can issue neither a monthly nor an annual license |
| License.IssuedClaims | plus/bencher_license/src/licensor.rs:55-91 | Bencher Cloud issues an ES256 token signed by its own pair, whose claims name Bencher, the organization and the entitlements, are issued now and expire one billing cycle later; monthly and annual differ only in the cycle |
| License.IssuedLicenseValidates | plus/bencher_license/src/licensor.rs:189-231 | A license Bencher Cloud issues validates from issue until expiry, with Bencher as audience and issuer, the organization as subject, the entitlements as `ent`, and `iat` one billing cycle before `exp` |
| License.IssuedLicenseExpires | plus/bencher_license/src/licensor.rs:146-156 | The same license is refused with `ExpiredSignature` once its cycle has passed |
| License.ValidateNeedsOnlyDecodingKey | plus/bencher_license/src/licensor.rs:49-53 | A self-hosted licensor accepts exactly what Bencher Cloud with the same checking key accepts |
| OrganizationRbac.ParseRole | services/lib/bencher_rbac/src/organization.rs:47-57 | Parsing succeeds exactly for "member" and "leader"; any other string is returned as the error |
| OrganizationRbac.RoleToString | services/lib/bencher_rbac/src/organization.rs:28-39 | A role displays as "member" or "leader", and as "member" exactly for the member role |
| OrganizationRbac.RoleToPolar | services/lib/bencher_rbac/src/organization.rs:41-45 | The string handed to the policy engine parses back to the role |
| OrganizationRbac.PermissionToString | services/lib/bencher_rbac/src/organization.rs:70-86 | A permission displays as a non-empty snake-case name |
| OrganizationRbac.PermissionToPolar | services/lib/bencher_rbac/src/organization.rs:88-92 | The string handed to the policy engine names only that permission |
| OrganizationRbac.RoleRoundTrip | services/lib/bencher_rbac/src/organization.rs:28-57 | Parsing a role's display gives the role back |
| OrganizationRbac.ParseThenDisplay | services/lib/bencher_rbac/src/organization.rs:28-57 | A parsed string is exactly what the parsed role displays as |
| OrganizationRbac.ParseIsCaseSensitive | services/lib/bencher_rbac/src/organization.rs:50-55 | Capitalised spellings and the empty string are refused |
| OrganizationRbac.RoleStringsInjective | services/lib/bencher_rbac/src/organization.rs:28-39 | Distinct roles display differently |
| OrganizationRbac.PermissionStringsInjective | services/lib/bencher_rbac/src/organization.rs:70-86 | Distinct permissions display differently |
| OrganizationRbac.PolarIsDisplay | services/lib/bencher_rbac/src/organization.rs:41-45 | The policy engine receives a role's or a permission's displayed string |
| Alert.SideFromBool | services/api/src/model/project/threshold/alert.rs:122-130 | `true` is the right side and `false` the left |
| Alert.BoolFromSide | services/api/src/model/project/threshold/alert.rs:132-139 | A side is stored as `true` exactly when its discriminant is 1 |
| Alert.ToJsonSide | services/api/src/model/project/threshold/alert.rs:141-148 | The JSON side is left exactly when the side is |
| Alert.ReportedThreshold | services/api/src/model/project/threshold/alert.rs:62-77 | The reported threshold carries the alert's statistic id and is otherwise the current threshold row |
| Alert.IntoJson | services/api/src/model/project/threshold/alert.rs:50-82 | A failed perf query fails the conversion with its error, and then a failed threshold query; a converted alert carries the parsed uuid and its perf's report uuid |
| Alert.BoolSideBool | services/api/src/model/project/threshold/alert.rs:122-139 | bool to side to bool is the identity |
| Alert.SideBoolSide | services/api/src/model/project/threshold/alert.rs:117-139 | side to bool to side is the identity, and the stored boolean is true exactly for discriminant 1 |
| Alert.JsonSideFaithful | services/api/src/model/project/threshold/alert.rs:141-148 | The JSON side names the same side, and distinct sides stay distinct |
| Alert.AsU32 | services/api/src/model/project/threshold/alert.rs:70 | `as u32` keeps a non-negative `i32` and wraps a negative one by 2^32 |
| Alert.IntoJsonReportsAlertStatistic | services/api/src/model/project/threshold/alert.rs:50-82 | A converted alert reports the threshold with the alert's own statistic id, the side its boolean encodes, the wrapped iteration, and the stored boundary and outlier |
| Alert.IntoJsonIgnoresCurrentStatistic | services/api/src/model/project/threshold/alert.rs:62-77 | The threshold's current statistic id never affects the result |
| AdapterMagic.Parse | lib/bencher_adapter/src/adapters/magic.rs:9-19 | A result is always one of the nine parsers' results; a JSON result wins; a Rust result means something is found |
| AdapterMagic.ParseIsFirstSome | lib/bencher_adapter/src/adapters/magic.rs:9-19 | The `or_else` chain returns the first present result of the nine parsers in order |
| AdapterMagic.JsonFirst | lib/bencher_adapter/src/adapters/magic.rs:10 | A JSON result wins over every other parser |
| AdapterMagic.ParseNoneIffAllNone | lib/bencher_adapter/src/adapters/magic.rs:9-19 | The result is absent exactly when all nine parsers find nothing |
| AdapterMagic.ParseIsFirstAccepting | lib/bencher_adapter/src/adapters/magic.rs:11-18 | The result is that of the first parser in order that accepts the input; later parsers can be replaced without effect |
| OnboardSteps.StepsNumberedInOrder | services/console/src/components/console/onboard/OnboardSteps.tsx:11-17 | The steps API token, project, run, invite, plus are numbered 1 to 5, and the bar lists every step |
| OnboardSteps.StepPath | services/console/src/components/console/onboard/OnboardSteps.tsx:19-32 | Each step's page lies under "/console/onboard/" |
| OnboardSteps.StepHref | services/console/src/components/console/onboard/OnboardSteps.tsx:36-40 | A step's link starts with its page, and is just the page exactly when there is no plan |
| OnboardSteps.Active | services/console/src/components/console/onboard/OnboardSteps.tsx:59-72 | A step is active exactly when it is among the bar's first `StepNumber(current)` steps |
| OnboardSteps.Markers | services/console/src/components/console/onboard/OnboardSteps.tsx:59-72 | Five markers, each lit exactly when the current step has reached its step, each linking to its step with the plan |
| OnboardSteps.StepPathsDistinct | services/console/src/components/console/onboard/OnboardSteps.tsx:19-32 | Each step has its own page, under "/console/onboard/" |
| OnboardSteps.StepHrefCarriesPlan | services/console/src/components/console/onboard/OnboardSteps.tsx:36-40 | Without a plan a step links to its page; with one, to the page followed by `?plan=` and the plan's name |
| OnboardSteps.MarkersLitPrefix | services/console/src/components/console/onboard/OnboardSteps.tsx:59-72 | Five markers in ascending step order; a marker is lit exactly when the current step has reached it, so the lit markers form a prefix |
| Statistic.WidenWindow | services/api/src/model/project/threshold/statistic.rs:136 | Widening a `u32` window to `i64` keeps the number, and no window stays none |
| Statistic.IntoJsonForThreshold | services/api/src/model/project/threshold/statistic.rs:47-73 | The window conversion is the only failure; on success uuid, test, sample sizes, boundaries and created are copied, the threshold is the argument and the window is the converted one |
| Statistic.InsertFromQuery | services/api/src/model/project/threshold/statistic.rs:90-115 | The insert keeps threshold, test, sample sizes, window, boundaries and created, under a new uuid |
| Statistic.InsertFromJson | services/api/src/model/project/threshold/statistic.rs:117-141 | Always succeeds; keeps test, sample sizes and boundaries, widens the window (none stays none), and takes the new uuid and the current time |
| Statistic.CopyKeepsRow | services/api/src/model/project/threshold/statistic.rs:90-115 | Storing the copy of a row under the row's id gives back the row with only its uuid replaced |
| Statistic.CreatedStatisticRoundTrip | services/api/src/model/project/threshold/statistic.rs:117-141 | A statistic created from JSON and stored converts back to JSON with the settings, window, uuid and time it was created with, when the window conversion accepts every `u32` |
| Statistic.CreatedWindowFitsU32 | services/api/src/model/project/threshold/statistic.rs:136 | A window created from JSON always fits an unsigned 32-bit number |
| FileSizeRunner.New | services/cli/src/bencher/sub/project/run/runner/file_size.rs:26-28 | The runner stores the path list unchanged |
| FileSizeRunner.Display | services/cli/src/bencher/sub/project/run/runner/file_size.rs:11-23 | No paths display as "", one path as itself, and more start with the first path followed by ", " |
| FileSizeRunner.DisplayEmpty | services/cli/src/bencher/sub/project/run/runner/file_size.rs:11-23 | No paths display as "" (as does a single empty path) |
| FileSizeRunner.DisplayListsPaths | services/cli/src/bencher/sub/project/run/runner/file_size.rs:11-23 | The display lists every path, in stored order, separated by ", ": comma-free paths are read back from it exactly |
| FileSizeRunner.FileName | services/cli/src/bencher/sub/project/run/runner/file_size.rs:33-35 | A file name is never empty, ".", ".." or a path with a '/' in it |
| FileSizeRunner.FileNameOfChild | services/cli/src/bencher/sub/project/run/runner/file_size.rs:33-35 | The file name of `dir/name`, and of a bare name, is that name |
| FileSizeRunner.NoFileNameAtRoot | services/cli/src/bencher/sub/project/run/runner/file_size.rs:33-35 | "/", "." and "" have no file name, so the whole path names the result |
| FileSizeRunner.NoFileNameOfParent | services/cli/src/bencher/sub/project/run/runner/file_size.rs:33-35 | A path ending in ".." has no file name |
| FileSizeRunner.NameText | services/cli/src/bencher/sub/project/run/runner/file_size.rs:33-35 | A result is named by the file name, or by the whole path when it has none |
| FileSizeRunner.EntryFor | services/cli/src/bencher/sub/project/run/runner/file_size.rs:33-52 | A bad name fails with `OutputFileName` before the file is looked at; then a failed length fails with `OutputFileSize`; otherwise the entry holds one file-size metric with the length as value and default bounds |
| FileSizeRunner.Entries | services/cli/src/bencher/sub/project/run/runner/file_size.rs:31-55 | No paths give no entries; on success there is one entry per path, and the last entry is what the last path's step produced |
| FileSizeRunner.EntriesOnePerPath | services/cli/src/bencher/sub/project/run/runner/file_size.rs:31-55 | On success there is exactly one entry per path, in path order, each the one that path's step produces |
| FileSizeRunner.EntriesFirstFailure | services/cli/src/bencher/sub/project/run/runner/file_size.rs:31-54 | The results fail exactly when some path's step fails, and then with the first failing path's error |
| FileSizeRunner.PrefixFailureIsFinal | services/cli/src/bencher/sub/project/run/runner/file_size.rs:37-42 | A failure within the first paths ends the whole call with that failure; later paths are never looked at |
| FileSizeRunner.Results | services/cli/src/bencher/sub/project/run/runner/file_size.rs:30-57 | A success means every path was measured; a path that fails makes the whole call fail with a name or size error, never a serialisation one |
| FileSizeRunner.GetResults | services/cli/src/bencher/sub/project/run/runner/file_size.rs:30-57 | The loop returns the serialised entries of all paths, or the first path's error, or the serialisation error |
| Organizations.Interpolate | services/ui/src/components/console/config/organizations.tsx:10 | A template writes a present slug as it is and a missing one as "undefined" |
| Organizations.Redirect | services/ui/src/components/console/config/organizations.tsx:8-12 | Redirects exactly when the table holds one row, to that row's projects page |
| Organizations.NoRedirectUnlessSingle | services/ui/src/components/console/config/organizations.tsx:9-11 | No redirect for missing data, no rows, or two or more rows |
| Organizations.MissingSlugRedirect | services/ui/src/components/console/config/organizations.tsx:10 | A single row without a slug, or a missing row, redirects to ".../undefined/projects" |
| Organizations.ProjectsPathRoundTrip | services/ui/src/components/console/config/organizations.tsx:10 | The slug is read back from its projects page path, so distinct slugs lead to distinct pages |
| Organizations.TableUrl | services/ui/src/components/console/config/organizations.tsx:20-22 | The list URL starts with the API base |
| Organizations.TableUrlIgnoresRoute | services/ui/src/components/console/config/organizations.tsx:20-22 | The list URL is the API base followed by "/v0/organizations", whatever the route |
| Organizations.RowButtonPath | services/ui/src/components/console/config/organizations.tsx:36-38 | The row button's path is the view path followed by "/projects" |
| Organizations.DeckUrl | services/ui/src/components/console/config/organizations.tsx:52-54 | The view URL starts with the API base and ends with "/" and the organization's slug |
| Organizations.DeckUrlExtendsTableUrl | services/ui/src/components/console/config/organizations.tsx:52-54 | The view URL is the list URL followed by "/" and the organization's slug |
| Organizations.DeckButtonPath | services/ui/src/components/console/config/organizations.tsx:68-70 | The view button's path is a projects page from which the organization's slug reads back |
| Organizations.DeckButtonIsRedirect | services/ui/src/components/console/config/organizations.tsx:68-70 | The view's button leads to the same page as the single-row redirect for the same slug |

## Left out

- `modeler.tsx` rendering: the SVG markup, the `Date()` stamp, the `Element` child component and React's scheduling of state updates. The render pass stops at the list of slots.
- `modeler.tsx` keys: the React key `lineIndex:positionIndex` is not modelled. The slot's location, which the key encodes, is.
- Modeler.LookupFlow: a catalog key inherited from `Object.prototype` (such as "toString") is not modelled; the typed catalog has only its own keys.
- Modeler.LookupElement: the same gap for elements. An id such as "constructor" finds the inherited property in the handler's `elements?.[elementId]` and in the render's `elements?.[id]`, while the model finds no element.
- JsValues.Copy: numbers are integers. NaN, infinities and fractions, which `JSON.stringify` treats specially, are not modelled. Nor are functions, symbols and `toJSON`.
- Modeler: lines and elements are always present in the typed model, so the `?.` on `lines` and `elements` never short-circuits.
- License.Decode: the library's own expiry check, with its 60-second leeway, is left out. `check_expiration` runs right after it with no leeway, so which licenses are accepted is the same. Error kinds can differ, though: the library checks expiry before the audience and the issuer, and the issuer before the audience, so a token that is long expired and also has a wrong audience gets `ExpiredSignature` from the library and `InvalidAudience` from the model. The required-claims check is always met by the typed claims.
- License: ES256 and PEM parsing are symbolic. The source of `Claims::new` is not part of this model; `NewClaims` is reconstructed from the test suite's assertions (licensor.rs:201-208 and 223-230) and the clock's use of `now`. The billing-cycle lengths are a parameter. The value "bencher.dev" comes from a crate that is not part of this model. `u64` and `u32` widths are modelled as unbounded naturals.
- License.NewLicense: `new_license` has four `?`s. The first two, `Claims::new` and `encoding`, are modelled. The third, a failure of `encode` itself, and the fourth, `Jwt::from_str` on the encoded text, are not: `Encode` is total and its token is taken to be a well-formed `Jwt`.
- Alert.IntoJson: the `f32` boundary and outlier are carried as reals. The database queries and the threshold's own JSON conversion are parameters.
- AdapterMagic: the nine language parsers are parameters.
- Statistic: `map_u32` is a parameter, and the statistic kinds are opaque. `CheckedU32` is one conversion that meets the round trip's requirement; it is not the library's code.
- FileSizeRunner.EntryFor: the length is a natural number, while the source converts it to `f64`, which loses precision above 2^53 bytes.
- FileSizeRunner: name parsing, `std::fs::metadata`, `JsonMetric::new_results` and `serde_json` serialisation are parameters. The file-size slug is a constant here; its defining crate is not part of this model. File names follow Unix path rules only.
- Organizations.Redirect: a slug is present or missing. A `null` slug, which the template would write as "null", is not modelled.
- Organizations: `BENCHER_API_URL`, `viewSlugPath` and `parentPath` are parameters or not modelled. The page headers, field cards and button lists are static configuration.
- Modeler.ModelerStore.HandleElement: follows the corrected guard, so a location outside the lines leaves the flow unchanged. The handler as written, which then writes to the element keyed "undefined", is `EditedFlowAsWritten` (see Findings).
- The mount effect's condition is decided by the initial state, so the constructor always selects the requested flow.

## Findings

| source | as written | input that shows it | evidently intended | confidence | as-written member | corrected member |
|---|---|---|---|---|---|---|
| client/src/components/studio/modeler/modeler.tsx:114-118 | An out-of-range location gives `elementId === undefined`, and `elements?.[undefined]` reads the key "undefined" | A subflow with lines `[["x"]]` and an element keyed "undefined" with a truthy value, edited at line 3 | An edit outside the lines changes nothing | not executed | Modeler.OutOfRangeEditHitsUndefinedKey | Modeler.EditedFlow |
