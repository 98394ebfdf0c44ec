# go-admin, modelled in Dafny

go-admin is a small Go library. It mounts an administration handler on an HTTP
router, which serves metrics, build info, ping, environment, GC statistics and
pprof endpoints, plus an index page that links all of them. It also ships a
RAML "api console" helper. That helper reflects over example Go values and
writes the RAML types it infers into a RAML template.

This project models two cores of the library and proves properties of both.

1. **The schema reflector** (`api-console/reflection-magic.go`).
   - Go types are values (`GoTypes.Ty`): a struct type is an id into a finite
     environment of declarations.
   - The registry `map[string][]Property` is a map from names to `Props`, which
     keeps a nil slice apart from a non-nil empty one.
   - structTypeName, typeNameOf and buildStructType are written twice. First
     as functions that carry the registry along (module `TypeWalk`, with a
     registry-free reference definition: `TypeNameRef`, `ShapeRef`,
     `FieldsRef`). Then as methods of a class that updates the registry in
     place (`Registry.TypeRegistry`), each proved equal to its function.
   - Termination rests on the placeholder the source stores before walking a
     struct's fields. The measure is the set of struct names whose entry is
     still nil.
   - typeToYaml, buildTypes and MergeWithTypes are in module `Raml`. The
     parsed YAML template is a map, and the YAML parser and renderer are
     function parameters (oracles).
   - Module `ReflectFacts` applies the model to concrete programs: a
     self-referential struct, embedding, `BuildInfo`, and an end-to-end
     example.
2. **The admin route table** (`admin.go`, `util.go`, `handlers.go`,
   `index.go`, `setup.go`).
   - Route configs are trees (`Routes.RouteConfig`). The constructors of
     handlers.go build them, with handlers as opaque tokens.
   - `AdminContext.AddRouteConfig` appends the flattened tree to the route
     list in place. It is proved equal to the depth-first flattening
     `Routes.Flatten`.
   - `pathOf` is the join of its components followed by a model of Go's
     `path.Clean` (module `CleanPath`). Clean is modelled by its segment
     rules: split at '/', drop empty and "." segments, let ".." remove the
     segment before it, and drop a ".." at the root.
   - `AsHandler` is a first-match loop, proved equal to `Admin.Dispatch`.
   - The index page's link list is built in a loop and sorted. The sort runs
     over an array through `Len`, `Less` and `Swap`.
   - setup.go normalises the prefix and records the registrations on a
     router object.

Panics are the library's only failure mode. Every panicking operation returns
`Panics.Result`, which is `Ok(value)` or `Panic(cause)`, with one cause per
panic site.

## Model

| member | source | states |
|---|---|---|
| Naming.PrimitiveTypeName | api-console/reflection-magic.go:235-270 | it succeeds exactly on the kinds isPrimitiveType accepts; Bool gives "boolean", the ten Int/Uint kinds "integer", both floats "number", String "string" (each an if-and-only-if); every other kind panics |
| Naming.BeforeComma | api-console/reflection-magic.go:215-220 | the result is a prefix of the tag without a comma, and it is the whole tag or is followed by the tag's first comma |
| Naming.SerializedFieldName | api-console/reflection-magic.go:207-232 | a name whose first byte reads as a lower-case rune gives ""; otherwise the tag name (the field name when there is no tag, the text before the first comma, "-" meaning none), with "?" appended for a pointer type; "" exactly when the field is unexported or a non-pointer field's tag names nothing |
| Naming.AsciiCase | api-console/reflection-magic.go:209 | for an ASCII first character, the field is skipped exactly when that character is a lower-case letter |
| Naming.WideFirstCharIsLower | api-console/reflection-magic.go:209 | a name whose first character is U+0800 or above is always skipped, because its first UTF-8 byte reads as a Latin-1 lower-case letter |
| Naming.OmitEmptyTagSkips | api-console/reflection-magic.go:213-226 | a non-pointer field tagged ",omitempty" gets the empty name |
| Naming.DashTaggedPointerIsQuestionMark | api-console/reflection-magic.go:222-230 | an exported pointer field tagged "-" gets the name "?" |
| Schema.Append | api-console/reflection-magic.go:147-151 | append gives a non-nil slice holding the old items followed by the new one |
| Schema.AppendAll | api-console/reflection-magic.go:143 | append of a list keeps the order of both lists, and the result is nil exactly when the slice was nil and nothing was appended |
| Specimen.JsonTy | api-console/reflection-magic.go:182 | the reflected type of a decoded JSON value: none for null, a primitive exactly for the scalars, a map exactly for objects |
| Specimen.NilRegistryTypeName | api-console/reflection-magic.go:190 | typeNameOf with a nil registry gives the primitive name for primitives and "object" for maps, and succeeds on nothing else |
| Specimen.ValueTypeName | api-console/reflection-magic.go:189-191 | a member value is typed "boolean", "number", "string" or "object" (each an if-and-only-if); a null or array member panics |
| Specimen.MemberProps | api-console/reflection-magic.go:188-192 | it succeeds exactly when every member can be typed; it then keeps the properties before it and adds one property per member, in member order |
| Specimen.ExampleType | api-console/reflection-magic.go:180-202 | a scalar gives its own RAML scalar name ("boolean", "number" or "string", as ValueTypeName names it) and one nameless property of that type; an object gives "object" with one property per member; a null or array panics; the list is never a nil slice |
| Specimen.BuildTypeFromExample | api-console/reflection-magic.go:180-202 | the method with the member loop returns what ExampleType describes |
| TypeWalk.PlaceholderShrinks | api-console/reflection-magic.go:107-109 | storing the placeholder removes the name from the names still to be built, which is what makes a recursive type terminate |
| TypeWalk.MarshalerProps | api-console/reflection-magic.go:161-177 | a json.Marshaler's properties are those of its decoded specimen, never a nil slice; a failed marshal or decode panics |
| TypeWalk.StructName | api-console/reflection-magic.go:100-119 | it panics on a non-struct; otherwise it returns the struct's name and has an entry for it; a non-nil entry is returned unchanged and never rebuilt; a fresh build equals the reference ShapeRef; no entry is removed and no non-nil entry changes; on success every entry is the old one or the reference properties of a struct with that name |
| TypeWalk.StructNameSucceeds | api-console/reflection-magic.go:100-119 | when the reference describes every declared struct, structTypeName succeeds on every struct, whatever the registry holds |
| TypeWalk.NameOfSucceeds | api-console/reflection-magic.go:78-98 | under the same condition, typeNameOf succeeds on every type the reference names |
| TypeWalk.StructPropsSucceeds | api-console/reflection-magic.go:129-156 | under the same condition, buildStructType succeeds on every struct the reference describes |
| TypeWalk.FieldPropsSucceeds | api-console/reflection-magic.go:136-153 | under the same condition, the field loop succeeds from any field whose remaining fields the reference describes |
| TypeWalk.NameOf | api-console/reflection-magic.go:78-98 | the name agrees with the reference TypeNameRef; primitives by PrimitiveTypeName, maps "object", other leaves panic; a pointer or slice succeeds exactly when structTypeName on its element does, and panics when the element is not a struct |
| TypeWalk.StructProps | api-console/reflection-magic.go:129-156 | the property list equals the reference ShapeRef: fields in declaration order, empty names skipped, an embedded struct's properties spliced in place, the `desc` tag as description; a json.Marshaler uses its specimen and leaves the registry alone |
| TypeWalk.FieldProps | api-console/reflection-magic.go:136-155 | the loop from field i appends exactly the reference properties of fields i onwards to what it has collected |
| TypeWalk.EmbeddedFieldProps | api-console/reflection-magic.go:142-145 | an embedded field contributes its struct's own properties in place of itself |
| TypeWalk.NamedFieldProps | api-console/reflection-magic.go:147-151 | a named field contributes one property typed by typeNameOf |
| Registry.BuildStructTypeForJsonMarshaller | api-console/reflection-magic.go:161-177 | the method returns what MarshalerProps describes |
| Registry.TypeRegistry.constructor | api-console/reflection-magic.go:45 | the registry starts empty |
| Registry.TypeRegistry.StructTypeName | api-console/reflection-magic.go:100-119 | the result and the registry left in place are those of StructName on the old registry |
| Registry.TypeRegistry.TypeNameOf | api-console/reflection-magic.go:78-98 | the result and the registry left in place are those of NameOf |
| Registry.TypeRegistry.BuildStructType | api-console/reflection-magic.go:129-156 | the result and the registry left in place are those of StructProps; the field loop keeps the old entries |
| Registry.TypeRegistry.AddField | api-console/reflection-magic.go:137-152 | one turn of the field loop moves FieldProps one field on, or ends it with the same panic |
| Raml.PropertyMapLastWins | api-console/reflection-magic.go:66-69 | the property map has a key for every property name and only those; each key holds a property of that name, and the last property with a name is the one kept |
| Raml.TypeToYaml | api-console/reflection-magic.go:59-76 | the map-building loop gives YamlType: one nameless property collapses to an alias of its type, otherwise an object with the property map |
| Raml.Registered | api-console/reflection-magic.go:44-49 | after the walk every value is a declared struct with a registry entry, only struct names are keys, and each entry holds the reference properties (ShapeRef) of a declared struct with that name |
| Raml.RegisteredSucceeds | api-console/reflection-magic.go:44-49 | the walk succeeds when every value is a struct and the reference describes every declared struct |
| Raml.NonStructValuePanics | api-console/reflection-magic.go:47-49 | a value that is not a struct, a pointer to one included, makes buildTypes panic |
| Raml.PanicPersists | api-console/reflection-magic.go:47-49 | once registering the first k values has panicked, the later values change nothing |
| Raml.InferredTypes | api-console/reflection-magic.go:44-57 | buildTypes succeeds exactly when the walk does, with one type per registry entry, each typeToYaml of its properties, which are the reference properties of a declared struct of that name |
| Raml.BuildTypes | api-console/reflection-magic.go:44-57 | the method returns InferredTypes |
| Raml.RegisterAll | api-console/reflection-magic.go:47-49 | the value loop over one shared registry returns what Registered describes |
| Raml.YamlTypes | api-console/reflection-magic.go:51-54 | the registry loop gives every name its typeToYaml, with no other keys |
| Raml.ReplaceTabs | api-console/reflection-magic.go:23 | same length; every tab becomes a space and every other character stays |
| Raml.InsertMissing | api-console/reflection-magic.go:29-33 | keys are the template's plus the inferred ones; a non-null template entry is kept; an inferred type fills exactly the missing or null entries |
| Raml.InsertTypes | api-console/reflection-magic.go:28-33 | the in-place merge loop gives InsertMissing |
| Raml.MergedDoc | api-console/reflection-magic.go:27-34 | no or null `types`: the document is unchanged; a `types` that is not a mapping panics; otherwise only `types` changes, to InsertMissing of it |
| Raml.MergedTemplate | api-console/reflection-magic.go:19-34 | a build panic comes first, then an unparsable template (after tab replacement) panics; when both succeed the result is exactly MergedDoc of the parsed template |
| Raml.Merge | api-console/reflection-magic.go:19-42 | panics of the merge pass through; a merged document that does not render panics; otherwise the output is exactly "#%RAML 1.0\n" followed by the rendering |
| Raml.MergeSucceeds | api-console/reflection-magic.go:19-42 | MergeWithTypes returns a text when every value is a described struct, the template parses, its `types` is missing, null or a mapping, and the merged document renders |
| Raml.MergeWithTypes | api-console/reflection-magic.go:19-42 | the method returns what Merge describes |
| Raml.InsertMissingIdempotent | api-console/reflection-magic.go:29-33 | merging the same types twice changes nothing the second time |
| Raml.MergedDocIdempotent | api-console/reflection-magic.go:27-34 | merging into an already merged document changes nothing |
| Raml.MergeIsIdempotent | api-console/reflection-magic.go:19-42 | text-level idempotence under an assumption about the YAML library (ReadsBack) that yaml.v2 does not meet for generated object types with properties; see its line under "Left out" |
| Raml.ReadBackIsMerged | api-console/reflection-magic.go:27-34 | the idempotence the model proves: a re-read merged document whose `types` keeps its kind, keys and non-null entries, whatever node the generated types read back as, merges to itself, so a second merge adds nothing |
| Raml.TemplateTypesWin | api-console/reflection-magic.go:30-32 | a type the template already declares is never replaced |
| Raml.EveryValueDeclared | api-console/reflection-magic.go:27-33 | every value passed in is declared under `types` after the merge |
| ReflectFacts.SelfReferenceTerminates | api-console/reflection-magic.go:105-116 | a struct with a pointer to itself and a slice of itself builds to one entry, whose properties name it as "Node" and "Node[]" |
| ReflectFacts.SkippedFieldsAddNothing | api-console/reflection-magic.go:136-153 | fields that all serialize to "" add nothing and leave the registry alone |
| ReflectFacts.NoVisibleFieldsBuildNil | api-console/reflection-magic.go:107-114 | a struct with no serialized field builds to a nil slice, its entry stays nil, and it is declared as an object without properties |
| ReflectFacts.FieldlessStructIsRebuilt | api-console/reflection-magic.go:107 | because its entry stays nil, such a struct is built again each time it is met |
| ReflectFacts.FirstDefinitionWins | api-console/reflection-magic.go:105-107 | once a struct has been built under a name, another struct with that name is neither built nor stored |
| ReflectFacts.OneEntryTypes | api-console/reflection-magic.go:51-54 | a registry with one entry gives one RAML type, typeToYaml of that entry |
| ReflectFacts.BuildInfoHasNoProperties | types.go:3-7 | BuildInfo's fields are all tagged ",omitempty", so buildTypes gives it an object with no properties |
| ReflectFacts.EmbeddedFieldsAreFlattened | api-console/reflection-magic.go:142-145 | `Outer` embedding `Inner{X}` with its own `Y` registers only `Outer`, with properties X then Y |
| ReflectFacts.ScalarMarshalerIsAlias | api-console/reflection-magic.go:161-177 | a json.Marshaler whose output is a bool, number or string is declared as an alias of "boolean", "number" or "string" respectively |
| ReflectFacts.PersonFieldNames | api-console/reflection-magic.go:207-232 | tags "name" and "age,omitempty" give "name" and "age", and the unexported field gives "" |
| ReflectFacts.PersonTypes | api-console/reflection-magic.go:44-76 | end to end: the tags rename the fields, the unexported one is dropped, and the `desc` tag is the description |
| CleanPath.JoinSplit | util.go:47 | joining the segments of a path gives the path back |
| CleanPath.SplitJoin | util.go:47 | splitting a join of slash-free segments gives the segments back |
| CleanPath.CleanRootedIsClean | util.go:47 | cleaning a rooted path gives "/" or "/" followed by segments that are not empty, ".", ".." and contain no '/' |
| CleanPath.CleanNoTrailingSlash | util.go:47 | a clean path other than "/" does not end in '/' |
| CleanPath.CleanFixesClean | util.go:47 | cleaning a clean path, with or without an extra leading '/', gives it back |
| Util.Joined | util.go:42-45 | the joined string always starts with '/' |
| Util.PathOf | util.go:41-53 | the method with the join loop and the "." guard returns the model's cleaned path |
| Util.PathOfIsClean | util.go:47-52 | the "." case cannot arise; the result starts with '/', has no empty, "." or ".." segment, and ends in '/' only when it is "/" |
| Util.PathOfIdempotent | util.go:41-53 | pathOf of its own output gives the same path |
| Util.CleanAddsRoot | util.go:42 | a relative path whose rooted form is clean gets the leading '/' and nothing else |
| Util.CleanDropsDotDotAtRoot | util.go:47 | pathOf("../x") is "/x" |
| Util.CleanEmptyIsRoot | util.go:41-53 | pathOf("") is "/" |
| Util.EvaluateIfFunc | util.go:26-39 | a plain value is returned unchanged; a function gives its first result; a function with no result panics |
| Routes.Describe | admin.go:24-27 | only the description changes; handler, method, path and children stay |
| Routes.DescribeTwice | admin.go:24-27 | the last description set is the one that stays |
| Routes.ToUpperSpec | admin.go:66 | upper-casing keeps the length, leaves no lower-case ASCII letter, shifts each lower-case letter to its capital and leaves every other character alone |
| Routes.ToUpperIdempotent | admin.go:66 | upper-casing twice is upper-casing once |
| Routes.Normalized | admin.go:63-67 | the appended route keeps the config's handler and description |
| Routes.FlattenWellFormed | admin.go:58-69 | every route appended for a tree has a clean rooted path and a method without lower-case letters |
| Routes.FlattenAllWellFormed | admin.go:58-69 | the same for a list of trees |
| Routes.FlattenCount | admin.go:58-69 | a tree appends one route per node with a non-empty path |
| Routes.FlattenAllCount | admin.go:58-69 | the same for a list of trees |
| Routes.FlattenAllAppend | admin.go:59-61 | flattening two lists in turn is flattening their concatenation |
| Routes.FlattenAllSnoc | admin.go:59-61 | one more child appends exactly that child's routes |
| Handlers.WithHandler | handlers.go:34-36 | the given method, path and handler, an empty description and no children |
| Handlers.WithHandlerFunc | handlers.go:30-32 | the same as WithHandler |
| Handlers.WithGetHandler | handlers.go:26-28 | a GET leaf |
| Handlers.WithGetHandlerFunc | handlers.go:22-24 | a GET leaf |
| Handlers.WithGeneric | handlers.go:18-20 | a GET leaf serving the value as JSON |
| Handlers.WithMetrics | handlers.go:38-42 | GET "/metrics" serving the registry, with its description |
| Handlers.WithForceGC | handlers.go:44-56 | POST "/gc/run", with its description |
| Handlers.WithBuildInfo | handlers.go:60-81 | GET "/info", with its description |
| Handlers.WithHeapDump | handlers.go:83-111 | GET "pprof/heapdump", with its description |
| Handlers.WithEnvironmentVariables | handlers.go:152-156 | GET "env" serving the environment, with its description |
| Handlers.WithPingPong | handlers.go:170-174 | GET "/ping", with its description |
| Handlers.WithGCStats | handlers.go:176-190 | GET "/gc/stats", with its description |
| Handlers.Group | handlers.go:193 | a node without path or handler, over the given children |
| Handlers.WithDefaults | handlers.go:192-198 | an empty-path group of ping, env and gc-stats, in that order |
| Handlers.PProfRoutes | handlers.go:114-138 | the five pprof routes every build has |
| Handlers.PProfConfig | handlers.go:113-150 | an empty-path group: the five pprof routes first, then pprof/exe as a sixth child exactly when the executable was found |
| Handlers.PProfShape | handlers.go:113-138 | the children are cmdline, profile, trace, symbol and memprofile in that order; symbol accepts every method, the others only GET, and none has children |
| Handlers.WithPProfHandlers | handlers.go:113-150 | the method with the conditional append returns PProfConfig |
| Handlers.Secure | handlers.go:163 | only the config's own handler is wrapped, once, in basic auth |
| Handlers.Secured | handlers.go:158-168 | an empty-path node whose children are the given configs in order, each secured |
| Handlers.RequireAuth | handlers.go:158-168 | the method with its loop returns Secured |
| Handlers.SecureWrapsOwnRouteOnly | handlers.go:158-168 | the routes below a secured config keep their handlers; only the config's own route gets the wrapped handler |
| Handlers.FlattenLeaves | admin.go:58-69 | childless configs with paths flatten to their own normalised routes, one each, in order |
| Handlers.LeafHandlers | admin.go:63-67 | those routes keep the handlers and descriptions of their configs, in order |
| Index.StrLessIrreflexive | index.go:14-16 | no path is less than itself |
| Index.StrLessAsymmetric | index.go:14-16 | string order is asymmetric |
| Index.StrLessTransitive | index.go:14-16 | string order is transitive |
| Index.StrLessTotal | index.go:14-16 | two different strings are ordered one way or the other |
| Index.LinkLeTransitive | index.go:14-16 | "may come before" is transitive |
| Index.Len | index.go:11-13 | the number of links |
| Index.Less | index.go:14-16 | compares only the paths, with Go's string order; never both ways, never i with itself |
| Index.Swap | index.go:17-19 | positions i and j are exchanged, all else unchanged, same multiset |
| Index.Sort | admin.go:97 | the links end non-decreasing by path and are a permutation of what they were |
| Admin.IndexRouteIsNormal | admin.go:40-43 | the index route is appended as it is: path "/", empty method |
| Admin.Answer | admin.go:121-129 | a non-empty method other than the request's is a 405 naming it; otherwise the route's handler serves |
| Admin.FirstFrom | admin.go:120-131 | the first position from i on holding the wanted path, if any, is found |
| Admin.FirstFromSkips | admin.go:120-131 | no position before the one found holds the wanted path |
| Admin.KeysMatch | admin.go:121 | a route matches exactly when pathOf(prefix, route path) equals the cleaned request path |
| Admin.DispatchNotFound | admin.go:120-133 | 404 exactly when no route matches |
| Admin.DispatchFirstMatch | admin.go:120-130 | the first matching route decides; later routes are never consulted, so a method mismatch there is a 405 even if a later route would accept |
| Admin.LinksFromMembers | admin.go:85-94 | a link is listed exactly when a route with a path other than "/" gives it, named by the route's path, with its description and its prefixed path |
| Admin.LinkIsServed | admin.go:85-94 | following an index link reaches a route, never a 404 |
| Admin.IndexIsFallback | admin.go:40-43 | the index route gets every request for its path that no user route claims, whatever the method |
| Admin.AdminContext.constructor | admin.go:35-46 | the user's routes come first, depth-first, then the index route; every route is well formed |
| Admin.AdminContext.AddRouteConfig | admin.go:58-69 | the route list grows by exactly the flattened tree, children before the node, and earlier routes stay; every route in the table stays well formed (Valid) |
| Admin.AdminContext.AddOwnRoute | admin.go:63-68 | the node's own route is appended, normalised, when its path is not empty; the table stays Valid |
| Admin.AdminContext.AsHandler | admin.go:116-135 | the loop's outcome is Dispatch; in a Valid table a 405 names a method without lower-case letters |
| Admin.AdminContext.IndexLinks | admin.go:84-97 | the rendered links are sorted by path and are a permutation of the links built from the routes |
| Admin.RenderedLinksAreServed | admin.go:84-97 | every link the index page renders leads to a route |
| Setup.TrimLeft | setup.go:13 | only leading slashes are cut, and the result does not start with one |
| Setup.TrimRight | setup.go:13 | only trailing slashes are cut, and the result does not end with one |
| Setup.TrimSlashes | setup.go:13 | what is left starts and ends with something other than '/' |
| Setup.NormalizedPrefixShape | setup.go:13 | the prefix starts with '/', has no second leading '/', and ends in '/' only when it is "/" |
| Setup.NormalizePrefixIdempotent | setup.go:13 | normalising a normalised prefix changes nothing |
| Setup.RegistrationsOrder | setup.go:17-21 | two registrations per method: position 2i holds the prefix, 2i+1 the prefix with "/*path", both for the i-th method |
| Setup.FourteenRegistrations | setup.go:17-21 | fourteen registrations, all of the one handler, at the prefix or its catch-all, for the seven methods |
| Setup.Router.Handler | setup.go:9 | a router records one registration |
| Setup.SetupAdminHandlerHTTPRouter | setup.go:12-22 | a new admin handler on the normalised prefix is registered, in order, as RegistrationsFor the seven methods |
| Setup.RegisterAll | setup.go:17-21 | the registration loop appends RegistrationsFor the methods |
| Setup.ServeMux.Handle | setup.go:26 | the mux records one pattern |
| Setup.SetupAdminHandlerMux | setup.go:24-27 | the prefix is used as given, and exactly one pattern is registered |

## Left out

- Go's `reflect`: types are the `Ty` datatype over an environment of struct declarations. Embedding is required to be acyclic (an embedded struct has a smaller id), as the Go compiler guarantees.
- `instantiateType`, `time.Now()` and the call of `MarshalJSON`: each struct declaration carries the decoded output of its `MarshalJSON` as a fixed value. A `None` there is the marshal or decode failure that panics.
- The YAML and JSON libraries: template parsing and rendering are function parameters, and a `None` from them is the panic the source raises. The parsed template is a map with an optional `types` mapping.
- Go map iteration order: the merged `types` map and the registry are stated as maps. The members of a decoded JSON object are a list in enumeration order. Contracts say nothing about that order.
- Specimen.ExampleType: the `reflect.Ptr` case of buildTypeFromExample is not modelled. A decoded JSON value never holds a pointer, so the case cannot arise. As written, that case calls Elem on `reflect.ValueOf(t)`, the value of the reflect.Type, not on the example (reflection-magic.go:197).
- Naming.StartsLower: `unicode.IsLower(rune(name[0]))` reads the first byte of the UTF-8 name as a rune. The model computes that byte and uses the Latin-1 lower-case table. Characters are code points, so a name is not a byte string here.
- Anonymous struct types all have the name "" and share one registry entry, as in Go. The model does not go beyond that collision.
- An embedded field whose type is a pointer or a non-struct json.Marshaler is not modelled as Go runs it. Here a marshaler is a property of a struct declaration, so such a field takes buildStructType's `NotStructFields` panic. Go would take the specimen path of reflection-magic.go:130-132 when the method is not promoted to the embedding struct. Conversely, a struct that embeds a struct with a value-receiver MarshalJSON is itself a json.Marshaler in Go, through method promotion. The environment does not tie the outer `marshaler` flag to this, so it also admits declarations with that flag false, which Go does not produce. For those the walk flattens the embedded specimen's properties into the outer struct.
- Raml.MergeIsIdempotent: the output text is not promised to be a fixed point. A generated Property is rendered as a struct, in field order (`type`, then `description`, reflection-magic.go:13-17). Read back, it is a map, which yaml.v2 renders with sorted keys (`description`, then `type`), so a second run can change the text. The lemma's ReadsBack assumption, same rendering after re-reading, excludes this. Raml.ReadBackIsMerged states the document-level idempotence that does hold.
- Raml.RegisterAll: a nil interface value passed to buildTypes has no reflected type, and structTypeName panics on it (reflection-magic.go:48). Values are `Ty` here, which cannot be nil, so this panic is not modelled.
- Handlers.PProfShape: the comment at handlers.go:128 says pprof/symbol is registered for GET and POST. The code gives it the empty method, which accepts every method, and the model follows the code.
- Util.EvaluateIfFunc: a function value is given by the results a call would return. The call itself and nil interface values are not modelled. Neither is a function that takes parameters, for which the call with no arguments panics in Go.
- Routes.ToUpperSpec: `strings.ToUpper` is modelled only for the ASCII letters. HTTP method names are ASCII.
- CleanPath: `path.Clean` is modelled by its segment rules. The lemmas state its behaviour on rooted paths, the only kind pathOf gives it.
- Handlers: handler bodies are tokens (`Named`, `JsonContent`, `BasicAuth`, `IndexPage`). GC runs, heap dumps, pprof, the environment, the host name, the clock and the HTML template are not modelled. `osext.Executable` is an `Option` parameter of WithPProfHandlers.
- Handlers.WithDefaults: no lemma states the cleaned paths of its three routes. Handlers.LeafHandlers states the handlers and descriptions they keep.
- Index.Sort: sort.Sort's own algorithm is not modelled. A selection sort driven by Len, Less and Swap stands in, with the same promise: sorted by path and a permutation. Stability is not promised by either.
- Setup.SetupAdminHandlerHTTPRouter and Setup.SetupAdminHandlerMux return the admin handler they create, so that its state can be stated. The Go functions return nothing.
- The validation that httprouter and http.ServeMux perform on registration, including a panic on duplicate patterns, is not modelled. The routers only record the registrations.
- `AddAdminHandler`, `AddIndexAdminHandler` (gorilla mux), `writeJSON`, `genericContentAsJSON`, api-console/api-console.go and example/main.go are not part of this model.
