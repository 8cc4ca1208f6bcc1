# Proto server generator: a verified model

This project models the core of the `kratos proto server` subcommand of the
gratos code generator. The subcommand reads a parsed protobuf schema. It
builds one service record per service declaration and one model per message
marked with the model comment. It then writes four kinds of Go files: the
models file, and a service, business-logic and data-access file for each
service.

The model has six modules:

- `Wrappers` (`wrappers.dfy`): the `Option` and `Result` types.
- `Naming` (`naming.dfy`): `parametersName`, `serviceName`, `fieldName` and
  `toUpperCamelCase`, with their properties. These are no separator left in
  the result, idempotence, dropping the qualifier, and worked examples.
- `Domain` (`domain.dfy`): the method, field, model and service value types,
  and the streaming-kind classifier `getMethodType`.
- `Biz` (`biz.dfy`): the service record as a class, and the flag pass of
  `executeBiz`. The loop sets `GoogleEmpty`, `UseIO` and `UseContext` in
  place before the file is rendered.
- `Walk` (`walk.dfy`): the callbacks `run` gives to `proto.Walk`.
  - The schema is a tree of elements. The walk is a pre-order traversal
    that runs the callbacks of every element and then descends into its
    children.
  - The walk is given twice. The `Walked` function is the reference definition;
    the `Builder` class has the captured variables `pkg`, `services` and
    `models` as fields and the callbacks as methods with loops.
  - The walk is also proved equal to a fold over the elements in pre-order.
    That gives a direct account of which package each service takes and
    which messages become models.
- `Emit` (`emit.dfy`): `writeFile` and the emission part of `run`.
  - The file system is a map from path to contents plus a set of directory
    paths.
  - Rendering is four functions given as parameters. Each returns bytes or
    an error.
  - The emission is first a plan: the ordered list of files with their
    rendered contents. Carrying out the plan stops at the first rendering
    error or failed write. `FileSystem` and the `Emit*` methods perform the
    same steps in place and are proved to match the plan.

## Notes on the code

- **Models file location**: the models file is written to
  `<service-dir>/../biz/<model-file>` (server.go:132). That path does not
  depend on `--biz-dir`. `Emit.ModelPath` builds it the same way.
- **Greeter run**: with every kind enabled, the Greeter run writes four
  files, and the models file is one of them (server.go:131-140).
  `Emit.GreeterEmission` proves the four paths.
- **Unreachable classifier branch**: the final `return unaryType` of
  `getMethodType` (server.go:208) is unreachable. The model has an
  `assert false` on that branch.

## Model

| member | source | states |
|---|---|---|
| Naming.UpTo | cmd/kratos/internal/proto/server/server.go:216 | element 0 of `strings.Split`: a prefix of the input with no separator, ending at the input's end or at the first separator |
| Naming.ReplaceAll | cmd/kratos/internal/proto/server/server.go:224 | the result has the input's length; each character equal to the pattern is replaced and every other is kept |
| Naming.RemoveAll | cmd/kratos/internal/proto/server/server.go:226 | the removed character no longer occurs; every other character occurs in the result exactly when it occurs in the input; an input without it is returned unchanged |
| Naming.Title | cmd/kratos/internal/proto/server/server.go:225 | the title-casing of `cases.Title`, over ASCII: a word is a run of letters and digits, its first letter is upper-cased and every other character is kept; `Naming.TitleSpec`, `Naming.TitleCapitalises` and `Naming.TitleFixed` characterise it |
| Naming.TitleSpec | cmd/kratos/internal/proto/server/server.go:225 | same length; at each position a letter is upper-cased exactly when no letter comes before it in its word (digits continue a word, any other character ends it), and every other character is kept |
| Naming.TitleCapitalises | cmd/kratos/internal/proto/server/server.go:225 | in the result, the first letter of every word is upper-case |
| Naming.TitleKeepsNonLetters | cmd/kratos/internal/proto/server/server.go:225 | a non-letter occurs in the result exactly when it occurs in the input |
| Naming.TitleFixed | cmd/kratos/internal/proto/server/server.go:225 | a string whose words already have upper-case first letters is returned unchanged |
| Naming.TitleWord | cmd/kratos/internal/proto/server/server.go:225 | a word of letters and digits that begins with a letter: only that letter is upper-cased, so "v1beta" becomes "V1beta" |
| Naming.ToUpperCamelCase | cmd/kratos/internal/proto/server/server.go:223-227 | the result contains neither "_" nor " " and is no longer than the input |
| Naming.ParametersName | cmd/kratos/internal/proto/server/server.go:211-213 | length preserved, no "." left, each "." becomes "_" and every other character is unchanged |
| Naming.ServiceName | cmd/kratos/internal/proto/server/server.go:215-217 | the result contains no ".", "_" or " " and is no longer than the input |
| Naming.FieldName | cmd/kratos/internal/proto/server/server.go:219-221 | `fieldName` is the same normalisation as `serviceName` for every input |
| Naming.CamelCapitalised | cmd/kratos/internal/proto/server/server.go:223-227 | in a camel-case result, the first letter of every word is upper-case |
| Naming.CamelWord | cmd/kratos/internal/proto/server/server.go:223-227 | a single word, with no "_" or " ", becomes its title-casing |
| Naming.CamelSplit | cmd/kratos/internal/proto/server/server.go:223-227 | at the first "_" or " ", the camel case of the whole is the camel case of the first word followed by that of the rest |
| Naming.NormalizedIsFixed | cmd/kratos/internal/proto/server/server.go:215-227 | a name with no ".", "_" or " " whose words already have upper-case first letters is returned unchanged |
| Naming.ServiceNameIdempotent | cmd/kratos/internal/proto/server/server.go:215-227 | normalising a name twice gives what normalising it once gives |
| Naming.ServiceNameDropsQualifier | cmd/kratos/internal/proto/server/server.go:216 | everything from the first "." on plays no part in the name |
| Naming.ServiceNameWordwise | cmd/kratos/internal/proto/server/server.go:215-227 | a first word followed by "_" and a dot-free rest becomes the word's title-casing followed by the rest's name |
| Naming.ServiceNameTwoWords | cmd/kratos/internal/proto/server/server.go:215-227 | two underscore-joined words become each word title-cased, then concatenated |
| Naming.ServiceNameOfWord | cmd/kratos/internal/proto/server/server.go:215-227 | a single word, with no ".", "_" or " ", becomes its title-casing |
| Naming.ServiceNameDigitExample | cmd/kratos/internal/proto/server/server.go:215-227 | "get_2fa" becomes "Get2Fa": "f" is the first letter of the word "2fa" |
| Naming.ServiceNameMidDigitExample | cmd/kratos/internal/proto/server/server.go:215-227 | "v1beta" becomes "V1beta": a digit does not end a word, so the letter after it is kept |
| Naming.ServiceNameUnderscoreExample | cmd/kratos/internal/proto/server/server.go:215-227 | "my_service" becomes "MyService" |
| Naming.ServiceNameDottedExample | cmd/kratos/internal/proto/server/server.go:215-227 | "foo.Bar" becomes "Foo" |
| Naming.ServiceNameEmptyExample | cmd/kratos/internal/proto/server/server.go:215-227 | "" stays "" |
| Naming.ParametersNameSegments | cmd/kratos/internal/proto/server/server.go:211-213 | a three-segment dotted reference becomes the segments joined by "_" |
| Naming.ParametersNameExample | cmd/kratos/internal/proto/server/server.go:211-213 | "google.protobuf.Empty" becomes "google_protobuf_Empty" |
| Domain.GetMethodType | cmd/kratos/internal/proto/server/server.go:198-209 | total; the kind streams requests exactly when the first flag is set and streams replies exactly when the second is |
| Domain.GetMethodTypeInverse | cmd/kratos/internal/proto/server/server.go:198-209 | classifying a kind's own two flags gives that kind back, so the classifier is a bijection onto the four kinds |
| Domain.GetMethodTypeTable | cmd/kratos/internal/proto/server/server.go:198-209 | (false,false) Unary, (true,true) TwoWayStreams, (true,false) RequestStreams, (false,true) ReturnsStreams |
| Biz.RaiseFlags | cmd/kratos/internal/proto/server/biz.go:54-63 | one loop iteration: each flag is set afterwards exactly when it was set before or the method needs it; project, package, name and methods are unchanged |
| Biz.NeedsEmpty | cmd/kratos/internal/proto/server/biz.go:54-55 | the empty-message condition: a unary method with `google.protobuf.Empty` as request or reply, or a reply-streaming method with it as request; `Biz.ScanFlagsSpec` and `Biz.DotlessNeverEmpty` use it |
| Biz.NeedsIO | cmd/kratos/internal/proto/server/biz.go:58 | the io condition: a method that streams its requests, in one or both directions; `Biz.ScanFlagsSpec` uses it |
| Biz.NeedsContext | cmd/kratos/internal/proto/server/biz.go:61 | the context condition: a unary method; `Biz.ScanFlagsSpec` uses it |
| Biz.BizFlags | cmd/kratos/internal/proto/server/biz.go:53-64 | the record after the whole loop over its own methods; `Biz.ScanFlagsSpec` characterises it and `Biz.BizFlagsIdempotent` shows it idempotent |
| Biz.ScanFlags | cmd/kratos/internal/proto/server/biz.go:53-64 | the flag loop leaves project, package, service name and methods unchanged |
| Biz.ScanFlagsSpec | cmd/kratos/internal/proto/server/biz.go:53-64 | after the loop each flag is set iff it was set before or some method needs it (the empty-message rule for unary and reply-streaming methods, the io rule for request-streaming kinds, the context rule for unary methods); flags are never cleared |
| Biz.BizFlagsIdempotent | cmd/kratos/internal/proto/server/biz.go:53-64 | running the flag loop a second time changes nothing |
| Biz.DotlessNeverEmpty | cmd/kratos/internal/proto/server/biz.go:51-56 | methods whose request and reply contain no "." never raise the empty-message flag |
| Biz.Service.constructor | cmd/kratos/internal/proto/server/server.go:77-81 | a new record carries project, package and name, with no methods and no flags set |
| Biz.Service.ExecuteBiz | cmd/kratos/internal/proto/server/biz.go:50-73 | the record's new value is the flag pass applied to its old value; the result is the rendering of the updated record, an error included, so the flags are set even when rendering fails |
| Walk.Contains | cmd/kratos/internal/proto/server/server.go:100 | `strings.Contains` holds exactly when the substring occurs at some offset |
| Walk.Marked | cmd/kratos/internal/proto/server/server.go:97-103 | a message is a model when its comment is present and some line contains the marker; `Walk.ModelsInSpec` uses it as the condition |
| Walk.MethodFor | cmd/kratos/internal/proto/server/server.go:87-90 | the method record of one RPC: normalised service and method names, request and reply flattened, kind classified; `Walk.MethodsOfSpec` characterises it |
| Walk.MethodsOf | cmd/kratos/internal/proto/server/server.go:82-91 | the methods of a service, one per direct RPC in order; `Walk.MethodsOfSpec` characterises it |
| Walk.FieldFor | cmd/kratos/internal/proto/server/server.go:115-119 | the field record of one normal field; `Walk.FieldsOfSpec` characterises it |
| Walk.FieldsOf | cmd/kratos/internal/proto/server/server.go:111-121 | the fields of a model, one per direct normal field in order; `Walk.FieldsOfSpec` characterises it |
| Walk.ModelOf | cmd/kratos/internal/proto/server/server.go:108-121 | the model record of a marked message: its name as declared and its fields; `Walk.ModelsInSpec` characterises it |
| Walk.ServiceOf | cmd/kratos/internal/proto/server/server.go:76-91 | the record of one service declaration; `Walk.WalkedServicesNeverUseEmpty` states its project, package and flags |
| Walk.Visit | cmd/kratos/internal/proto/server/server.go:70-123 | the three callbacks on one element, without its children; `Walk.FoldParts` characterises it part by part |
| Walk.Walked | cmd/kratos/internal/proto/server/server.go:69-125 | the walk of a sequence of elements, in order; `Walk.WalkedIsFold` and `Walk.WalkedGrows` characterise it |
| Walk.WalkedElement | cmd/kratos/internal/proto/server/server.go:69-125 | one element's callbacks, then its children; `Walk.WalkedElementIsFold` and `Walk.WalkedElementGrows` characterise it |
| Walk.WalkedGrows | cmd/kratos/internal/proto/server/server.go:75-123 | the walk only appends: the services and models already built stay, in order, at the front |
| Walk.WalkedElementGrows | cmd/kratos/internal/proto/server/server.go:75-123 | one element's walk only appends services and models |
| Walk.RpcsSpec | cmd/kratos/internal/proto/server/server.go:82-86 | the RPC elements collected for a service are exactly its direct children that are RPCs |
| Walk.MethodsOfSpec | cmd/kratos/internal/proto/server/server.go:82-91 | one method per direct RPC, in declaration order, each built from its RPC; every method names the normalised service, with dot-free request and reply |
| Walk.NormalFieldsSpec | cmd/kratos/internal/proto/server/server.go:111-113 | the fields collected for a message are exactly its direct children that are normal fields |
| Walk.FieldsOfSpec | cmd/kratos/internal/proto/server/server.go:111-121 | one field per direct normal field, in order, with the normalised name, the type as declared and the repeated flag; no normal field gives no field |
| Walk.WalkedIsFold | cmd/kratos/internal/proto/server/server.go:69-125 | the tree walk runs the callbacks exactly once per element, in pre-order |
| Walk.WalkedElementIsFold | cmd/kratos/internal/proto/server/server.go:69-125 | an element's walk is its own callbacks followed by its descendants' callbacks in pre-order |
| Walk.PkgAfterNone | cmd/kratos/internal/proto/server/server.go:70-74 | without a `go_package` option the package stays the initial "" |
| Walk.PkgAfterLast | cmd/kratos/internal/proto/server/server.go:70-74 | the last `go_package` option so far sets the package, to its value up to the first ";" |
| Walk.ServicesInComplete | cmd/kratos/internal/proto/server/server.go:75-93 | every service declaration yields its record, built with the package current at that point of the walk |
| Walk.ServiceAtIn | cmd/kratos/internal/proto/server/server.go:75-93 | the service declaration at any position yields its record among the walked services |
| Walk.ServicesInSound | cmd/kratos/internal/proto/server/server.go:75-93 | every record comes from some service declaration |
| Walk.ModelsInSpec | cmd/kratos/internal/proto/server/server.go:94-123 | a message yields a model, with its raw name and its fields, iff it has a comment with a line containing the marker; every model comes from such a message |
| Walk.FoldParts | cmd/kratos/internal/proto/server/server.go:64-125 | the walk's state splits into the package, the services and the models, each given by its own reference definition |
| Walk.WalkResult | cmd/kratos/internal/proto/server/server.go:64-125 | the services and models a schema yields are those of the reference definitions over its elements in pre-order |
| Walk.WalkedServicesNeverUseEmpty | cmd/kratos/internal/proto/server/server.go:76-89 | every walked record has project = package up to the first "/", no flag set, and a flag pass that never raises the empty-message flag |
| Walk.Builder.constructor | cmd/kratos/internal/proto/server/server.go:64-68 | empty package, no services and no models |
| Walk.Builder.OnOption | cmd/kratos/internal/proto/server/server.go:70-74 | the shared state after the option callback is `Walk.Visit`'s step for that option; the service list is unchanged |
| Walk.Builder.OnService | cmd/kratos/internal/proto/server/server.go:75-93 | the shared state after the service callback is `Walk.Visit`'s step; exactly one new record is appended |
| Walk.Builder.OnMessage | cmd/kratos/internal/proto/server/server.go:94-123 | the shared state after the message callback is `Walk.Visit`'s step; the service list is unchanged |
| Walk.Builder.Walk | cmd/kratos/internal/proto/server/server.go:69-125 | walking a sequence of elements yields the state `Walk.Walked` gives; earlier records are kept and new ones are fresh and distinct |
| Walk.Builder.WalkElement | cmd/kratos/internal/proto/server/server.go:69-125 | one element's callbacks, then its children, as `Walk.WalkedElement` says |
| Walk.Builder.WalkService | cmd/kratos/internal/proto/server/server.go:75-93 | a service declaration's callback, then its children, as `Walk.WalkedElement` says |
| Walk.Build | cmd/kratos/internal/proto/server/server.go:64-125 | the records built have the values `Walk.Walked` yields, are distinct and fresh; the models are those of `Walk.Walked` |
| Emit.FileFor | cmd/kratos/internal/proto/server/server.go:146 | the file of a service in a directory: the directory, "/", the lower-cased name and ".go"; `Emit.FileForInjective` characterises it |
| Emit.FileForInjective | cmd/kratos/internal/proto/server/server.go:146 | two services of one directory get the same file exactly when their lower-cased names agree |
| Emit.ModelPath | cmd/kratos/internal/proto/server/server.go:132 | the models file path: the service directory joined with "../biz" and the model file name, whatever the business-logic directory; `Emit.GreeterEmission` shows it for the defaults |
| Emit.ServiceSteps | cmd/kratos/internal/proto/server/server.go:142-179 | one service's files in order: service, business logic, data; `Emit.ServiceStepsPaths` and `Emit.ServicesStepsShape` characterise it |
| Emit.ServiceStepsPaths | cmd/kratos/internal/proto/server/server.go:145-178 | a service contributes one file per enabled kind, each at one of that service's three paths; when enabled, the service file is at the service directory rendered from the record, the business-logic file at the business-logic directory rendered after the flag pass, and the data file at the data directory rendered from the record as it then stands |
| Emit.Plan | cmd/kratos/internal/proto/server/server.go:131-179 | the models file if enabled, then each service's files; `Emit.ApplyCompletes`, `Emit.EmitOneService` and `Emit.Emit` characterise it |
| Emit.Defaults | cmd/kratos/internal/proto/server/server.go:35-44 | the flag defaults: "internal/service", "internal/biz", "internal/data", "models.go", "gratos::model", and every boolean flag off |
| Emit.Exists | cmd/kratos/internal/proto/server/server.go:183 | what `os.Stat` reports as present: a file or a directory at the path; `Emit.Write` uses it |
| Emit.Join | cmd/kratos/internal/proto/server/server.go:132 | `filepath.Join` of a directory and a name, without path cleaning |
| Emit.ToLower | cmd/kratos/internal/proto/server/server.go:146 | `strings.ToLower` over ASCII |
| Emit.Write | cmd/kratos/internal/proto/server/server.go:182-196 | an absent path is written; an existing path without overwriting is refused with "file already exists: <path>" and nothing changes; a file with overwriting is replaced; a directory with overwriting fails; a write stores only that path |
| Emit.Perform | cmd/kratos/internal/proto/server/server.go:145-154 | one file: a rendering error ends the run with that error and changes nothing; a failed write ends it at that path; a refused write never ends the run |
| Emit.Apply | cmd/kratos/internal/proto/server/server.go:142-179 | the steps never remove a file or change the directories, and never report a missing target directory |
| Emit.Emission | cmd/kratos/internal/proto/server/server.go:126-179 | nothing is written, and the run ends as target-missing, exactly when the service directory does not exist; no file is ever removed |
| Emit.ApplyCompletes | cmd/kratos/internal/proto/server/server.go:137-177 | a run completes iff every file renders and no planned path is a directory when overwriting; a refused file never stops the later writes |
| Emit.ApplyStopsAt | cmd/kratos/internal/proto/server/server.go:147-150 | once a step ends the run, no later file is written |
| Emit.ApplyUntouched | cmd/kratos/internal/proto/server/server.go:182-196 | a path no step names keeps its contents or stays absent |
| Emit.ApplyKeepsExisting | cmd/kratos/internal/proto/server/server.go:183-189 | without overwriting, an existing file's contents never change |
| Emit.ApplyPathsExist | cmd/kratos/internal/proto/server/server.go:182-196 | after a completed run every planned path exists |
| Emit.FirstWriteWins | cmd/kratos/internal/proto/server/server.go:183-189 | without overwriting, a path that was absent holds what the first step naming it rendered |
| Emit.LastWriteWins | cmd/kratos/internal/proto/server/server.go:184-191 | with overwriting, a path holds what the last step naming it rendered |
| Emit.ApplyAllExisting | cmd/kratos/internal/proto/server/server.go:183-189 | without overwriting, a run in which every path already exists changes nothing |
| Emit.RerunWithoutOverwrite | cmd/kratos/internal/proto/server/server.go:183-189 | re-running a completed run without overwriting writes nothing |
| Emit.RerunWithOverwrite | cmd/kratos/internal/proto/server/server.go:184-191 | re-running a completed run with overwriting leaves the same files |
| Emit.EmissionRerun | cmd/kratos/internal/proto/server/server.go:126-179 | re-running a completed emission on its own output leaves the files as they are |
| Emit.ServicesStepsShape | cmd/kratos/internal/proto/server/server.go:142-179 | with all kinds enabled, each service contributes its service, business-logic and data-access file in that order; the latter two are rendered from the flagged record |
| Emit.FileSystem.WriteFile | cmd/kratos/internal/proto/server/server.go:182-196 | the in-place write changes the file system and reports the outcome exactly as `Emit.Write` says |
| Emit.WriteStep | cmd/kratos/internal/proto/server/server.go:145-154 | rendering one file and writing it changes the file system and ends as `Emit.Perform` says |
| Emit.ServiceFile | cmd/kratos/internal/proto/server/server.go:145-154 | the service file of a record is written as the plan's service step says |
| Emit.BizFile | cmd/kratos/internal/proto/server/server.go:157-166 | the record's flags are raised, and its business-logic file written, as the plan's business-logic step says |
| Emit.DataFile | cmd/kratos/internal/proto/server/server.go:169-178 | the data-access file of the record as it now stands is written as the plan's data step says |
| Emit.EmitService | cmd/kratos/internal/proto/server/server.go:142-179 | one loop iteration carries out that service's steps of the plan; when it completes, the record has its flags raised iff the business-logic step ran |
| Emit.Emit | cmd/kratos/internal/proto/server/server.go:126-179 | the directory check, the models file and the loop over the records do exactly what `Emit.Emission` says for the records' values |
| Emit.EmitServices | cmd/kratos/internal/proto/server/server.go:142-179 | the loop carries out the services' steps of the plan, stopping where the plan stops |
| Emit.Run | cmd/kratos/internal/proto/server/server.go:64-179 | the walk, then the emission, gives the emission of the walked services and models |
| Emit.WalkOneService | cmd/kratos/internal/proto/server/server.go:75-93 | a schema with one service of one unary RPC yields one record with that method, an empty package and no model; the service and RPC names are taken already normalised and the request and reply dot-free, so the names appear unchanged |
| Emit.GreeterWalk | cmd/kratos/internal/proto/server/server.go:75-93 | the `Greeter` schema yields the record `Greeter` with method `SayHello(HelloRequest) HelloReply`, unary |
| Emit.EmitOneService | cmd/kratos/internal/proto/server/server.go:126-179 | one service, all kinds enabled, no overwriting and no existing files: the run completes and writes exactly the models file and the service's three files |
| Emit.GreeterEmission | cmd/kratos/internal/proto/server/server.go:126-179 | with the default flags and empty directories the run writes exactly "internal/service/../biz/models.go", "internal/service/greeter.go", "internal/biz/greeter.go" and "internal/data/greeter.go" |
| Emit.GreeterFlags | cmd/kratos/internal/proto/server/biz.go:53-64 | the greeter's business-logic file is rendered with the context flag and without the io and empty-message flags |

## Left out

- Command wiring: the cobra command and flag registration (server.go:16-45) are not modelled. The configuration is an immutable `Config` record, and `Emit.Defaults` holds the flag defaults.
- Missing arguments: the branch of `run` that prints a usage hint when no schema path is given is printing only.
- Opening and parsing the schema (server.go:52-62) is I/O and an external parser. The model starts from the parsed element tree, and the `log.Fatal` exits on those errors are not modelled.
- Template rendering: `Models.execute`, `Service.execute`, `executeData` and the template part of `executeBiz` use the `html/template` library, which is not part of this model. They are four functions given as parameters; each returns bytes or an error. `data.go` is not part of this model beyond that.
- `cases.Title`: modelled over ASCII. A word is a run of letters and digits, and any other character ends it. The first letter of each word is upper-cased, and every other character is kept. So "2fa" becomes "2Fa" and "v1beta" becomes "V1beta". Unicode word breaking and case mapping are not modelled. Neither are the library's mid-word punctuation characters, such as the apostrophe, which do not end a word ("don't" becomes "Don't" in the library but "Don'T" in the model). Proto identifiers are made of letters, digits and underscores, and the code turns the underscores into spaces first.
- `strings.ToLower`: modelled as ASCII lower-casing.
- `filepath.Join`: modelled as joining with "/". Path cleaning is not modelled, so `dir/../biz` is not reduced to the sibling directory. As a result, "internal/service/../biz/models.go" and "internal/biz/models.go" are two keys in the model but one file in the source. Under the default flags, a service named `Models` has its business-logic file refused (or, with overwriting, written over the models file) in the source, while the model writes both. For the same reason the paths in `Emit.GreeterEmission` are the joined strings, not the cleaned paths that `os.WriteFile` receives.
- `os.Stat`: modelled only as present or absent. A path is present when it is a file or a directory; its other error kinds are not modelled.
- `os.WriteFile`: the only failure modelled is writing over a directory with overwriting on, which makes the generator exit. Missing parent directories and permission errors are not modelled.
- Elements inside an RPC's body (its options) are not visited: `Rpc` has no children in the model. `go_package` is a file-level option.
- Printing and logging (`fmt.Printf`, `fmt.Fprintf`) carry no logic and are not modelled. Neither is the process exit of `log.Fatal`: the run's `Status` records where it stopped.
- Emit.Emit: does not state the records' flags after the run, only the file system and the outcome, because that extra postcondition makes the proof too costly.
- Emit.EmitServices: does not state the records' flags after the loop, for the same reason.
- Emit.EmitService: states the record's new flags only when the iteration completes; on an early stop it says nothing about them.
- Service identity: the emission loop requires the records to be distinct objects. `Walk.Build` proves that the walk creates a fresh record per declaration and never aliases two.
