# Postman collection generator: the synthesis of request templates

The model covers the part of the generator that turns an application's route table into a Postman collection document. It has five parts:

- **Placeholders per declared type.** A zero for numeric primitives, `false`, the null character, the empty string, an empty list or map. Null otherwise.
- **Per-route parameter extraction.** Body parameters put one entry per declared field into the body map. Query parameters put one entry each into the query map, with the explicit default literal or a placeholder. A null or blank placeholder becomes "{name}".
- **Item building.** The name is `pattern_METHOD`; the authorization header is added when enabled; the raw JSON body is added when the body map is non-empty; the URL is base URL + path + `?k=v&...`.
- **Collection assembly.** Each route yields the product of its patterns and its methods. A route that throws is caught and contributes nothing.
- **Configuration.** Defaults, base-URL precedence and the output path.

Modules:

- `Wrappers`: the `Option` type.
- `JavaStrings`: the parts of `String` and `StringUtils` the generator relies on.
  - `Character.isWhitespace` and blankness.
  - `trim`, which drops characters up to U+0020 at both ends.
  - `replaceAll` with a pattern that has no regex metacharacters.
  - `toUpperCase`, `endsWith` and `String.join`.
- `CollectionProperties`: the configuration records with their defaults, and `Output.getFullPath`.
- `CollectionModel`: the placeholder values and `String.valueOf`, declared types, handler parameters, HTTP methods, routes and the document records.
  - It also holds `ObjectMap`, the class for a `HashMap` that is shared by reference and filled in place.
- `TypeDefaults`: `getDefaultValueForType`.
- `ParameterExtraction`: `extractParameterDefaults`, `extractRequestBodyDefaults` and `extractRequestParamDefaults`.
  - These are methods that update two `ObjectMap`s.
  - They are proved against the functions `PutFields`, `QueryEntry`, `ExtractStep` and `Extracted`.
- `RequestBuilding`: `createItem`, `createHeaders`, `createBody` and `buildUrl`.
  - `buildUrl` walks the query map in an order the model leaves open: the key is chosen with `:|`, and a ghost out-parameter records the order.
- `CollectionAssembly`: `determineBaseUrl`, `createCollectionInfo`, `createCollectionItems`, `buildPostmanCollection` and `generateCollection` up to the file write.
  - `CreateCollectionItems` is proved against the per-route predicate `RouteContribution`.

Two inputs are parameters of the model rather than part of it:

- **The handler table** is a `seq<Route>` in the table's iteration order. Each route carries:
  - its parsed patterns, `None` when the mapping has no parsed path-pattern condition;
  - its methods;
  - its parameters, each with its annotations, its declared type and that type's fields.
- **The JSON serialiser** is a function from the body map to `Some(text)`. It returns `None` where `ObjectMapper.writeValueAsString` throws `JsonProcessingException`.

The serialiser is deterministic, and every item of a route shares the same body map. So if serialisation fails on any item it fails on the first one, and a failing route leaves the item list as it was. `AppendRouteItems` proves this. The item list only grows: `CreateCollectionItems` with `FlattenPrefix`.

Two facts about the code shape the model:

- **Map order.** Both placeholder maps are `HashMap`s (PostmanCollectionService.java:139-140), so neither the query string nor the body JSON has a defined key order. The model keeps the maps unordered:
  - `BuildUrl` may list the query pairs in any order;
  - the body text is whatever the serialiser makes of the map.
- **Failures inside a route.** Items are appended one at a time inside the `try` (PostmanCollectionService.java:144-149). A failing route still adds nothing, because the serialiser fails on the route's first item if it fails at all. `AppendRouteItems` proves this from that argument, not by construction.

## Model

| member | source | states |
|---|---|---|
| JavaStrings.Trim | src/main/java/com/collection/creator/service/PostmanCollectionService.java:207-208 | `trim` only shortens, keeps only characters of the input, leaves no character at or below U+0020 at either end, and leaves a string without such ends unchanged |
| JavaStrings.TrimIsSlice | src/main/java/com/collection/creator/service/PostmanCollectionService.java:207-208 | `trim` returns one contiguous slice of its input, having dropped only characters at or below U+0020, and only from the two ends |
| JavaStrings.TrimKeepsBlank | src/main/java/com/collection/creator/service/PostmanCollectionService.java:207-208 | a blank string is still blank after `trim` |
| JavaStrings.RemoveAll | src/main/java/com/collection/creator/service/PostmanCollectionService.java:207-208 | deleting every occurrence of the sentinel only shortens the text |
| JavaStrings.RemoveAllOnlyDeletes | src/main/java/com/collection/creator/service/PostmanCollectionService.java:207-208 | every character left after the deletion comes from the input |
| JavaStrings.RemoveAllFirstOccurrence | src/main/java/com/collection/creator/service/PostmanCollectionService.java:207-208 | the text before the first occurrence of the sentinel is kept, that occurrence is deleted, and the rest is the deletion applied to the text after it |
| JavaStrings.RemoveAllAbsent | src/main/java/com/collection/creator/service/PostmanCollectionService.java:207-208 | a default literal that does not contain the sentinel is left unchanged by the deletion |
| JavaStrings.RemoveAllSelf | src/main/java/com/collection/creator/service/PostmanCollectionService.java:207-208 | deleting the sentinel from the sentinel leaves the empty string |
| JavaStrings.RemoveAllTrimKeepsBlank | src/main/java/com/collection/creator/service/PostmanCollectionService.java:207-208 | a blank default can never turn into an explicit one through deletion and trimming |
| JavaStrings.ToUpper | src/main/java/com/collection/creator/service/PostmanCollectionService.java:231-234 | upper-casing keeps the length and maps each character to its upper case |
| JavaStrings.ToUpperNoLower | src/main/java/com/collection/creator/service/PostmanCollectionService.java:231-234 | text without lower-case letters (a method's enum name) is its own upper case |
| CollectionProperties.SeparatedDirectory | src/main/java/com/collection/creator/config/PostmanCollectionProperties.java:128 | the directory ends with '/': a directory that already ends with '/' is kept as is, any other gets exactly one '/' appended |
| CollectionProperties.FullPath | src/main/java/com/collection/creator/config/PostmanCollectionProperties.java:127-130 | the path starts with the directory, ends with '/' and the file name, and has the length of the two parts plus one only when a separator had to be inserted |
| CollectionProperties.FullPathSplits | src/main/java/com/collection/creator/config/PostmanCollectionProperties.java:127-130 | the file name and the separated directory can be read back from the full path |
| CollectionProperties.DefaultFullPath | src/main/java/com/collection/creator/config/PostmanCollectionProperties.java:101-106 | with the default output settings the file is "./collection.json" |
| CollectionModel.ValueString | src/main/java/com/collection/creator/service/PostmanCollectionService.java:217 | `toString` here, and the string concatenation at line 291, print a String as itself and every other value, null included, as non-empty text |
| CollectionModel.MethodName | src/main/java/com/collection/creator/service/PostmanCollectionService.java:231 | every HTTP method's name is non-empty and made of upper-case letters only |
| CollectionModel.MethodNameInjective | src/main/java/com/collection/creator/service/PostmanCollectionService.java:234 | distinct methods have distinct names |
| CollectionModel.ObjectMap.constructor | src/main/java/com/collection/creator/service/PostmanCollectionService.java:139-140 | a new map is empty |
| CollectionModel.ObjectMap.Put | src/main/java/com/collection/creator/service/PostmanCollectionService.java:188 | `put` maps the key to the value and leaves every other key alone |
| TypeDefaults.DefaultValue | src/main/java/com/collection/creator/service/PostmanCollectionService.java:325-347 | each numeric primitive gets its own zero; boolean gets false and char the null character; String gets ""; a Collection gets an empty list, even when it is also a Map; any other Map gets an empty map; null exactly for void, the boxed wrappers and other classes |
| TypeDefaults.DefaultValueIsEmpty | src/main/java/com/collection/creator/service/PostmanCollectionService.java:325-347 | every placeholder is an empty or zero value |
| TypeDefaults.DefaultValueBlankOnlyForString | src/main/java/com/collection/creator/service/PostmanCollectionService.java:216-219 | among non-null placeholders, only String's prints blank, so it alone is replaced by "{name}" |
| ParameterExtraction.PutFields | src/main/java/com/collection/creator/service/PostmanCollectionService.java:184-190 | after the fields are put, the body map's keys are the old keys plus the field names, and keys outside the field names keep their values |
| ParameterExtraction.PutFieldsLastWriteWins | src/main/java/com/collection/creator/service/PostmanCollectionService.java:186-189 | for a field name that repeats, the last field of that name decides the placeholder |
| ParameterExtraction.ExplicitDefaultIsNonBlank | src/main/java/com/collection/creator/service/PostmanCollectionService.java:206-209 | an explicit default literal is never blank |
| ParameterExtraction.SentinelIsNoDefault | src/main/java/com/collection/creator/service/PostmanCollectionService.java:206-211 | a `defaultValue` left at the framework's sentinel counts as no default, so the type's placeholder is used |
| ParameterExtraction.QueryEntry | src/main/java/com/collection/creator/service/PostmanCollectionService.java:206-221 | the key is `value` when it is non-blank after trimming and the parameter name otherwise; the value is the explicit literal, else the type's non-blank placeholder, else "{key}"; it is never null or blank |
| ParameterExtraction.PlaceholderNonBlank | src/main/java/com/collection/creator/service/PostmanCollectionService.java:216-219 | the "{name}" fallback is never blank |
| ParameterExtraction.ExtractedBodyKeys | src/main/java/com/collection/creator/service/PostmanCollectionService.java:161-179 | the body map's keys are exactly the field names of the body parameters |
| ParameterExtraction.ExtractedQueryKeys | src/main/java/com/collection/creator/service/PostmanCollectionService.java:161-179 | the query map's keys are exactly the effective names of the query parameters |
| ParameterExtraction.ExtractedQueryNeverBlank | src/main/java/com/collection/creator/service/PostmanCollectionService.java:195-222 | every value in the query map is present and prints non-blank |
| ParameterExtraction.QueryLastWriteWins | src/main/java/com/collection/creator/service/PostmanCollectionService.java:221 | the last query parameter of a given name decides that key's value |
| ParameterExtraction.Annotated | src/main/java/com/collection/creator/service/PostmanCollectionService.java:170-178 | the annotated parameters are the input's parameters that carry one of the two annotations |
| ParameterExtraction.UnannotatedIgnored | src/main/java/com/collection/creator/service/PostmanCollectionService.java:170-178 | parameters with neither annotation change neither map |
| ParameterExtraction.UnannotatedStep | src/main/java/com/collection/creator/service/PostmanCollectionService.java:170-178 | appending a parameter with neither annotation leaves both maps as they were |
| ParameterExtraction.BothActsAsBody | src/main/java/com/collection/creator/service/PostmanCollectionService.java:173-176 | a parameter with both annotations is treated as a body parameter and leaves the query map alone |
| ParameterExtraction.ExtractRequestBodyDefaults | src/main/java/com/collection/creator/service/PostmanCollectionService.java:184-190 | the shared body map afterwards is the old map with the fields put in declaration order |
| ParameterExtraction.ExtractRequestParamDefaults | src/main/java/com/collection/creator/service/PostmanCollectionService.java:195-222 | the shared query map afterwards is the old map with the parameter's entry put |
| ParameterExtraction.ExtractParameterDefaults | src/main/java/com/collection/creator/service/PostmanCollectionService.java:161-179 | the two shared maps afterwards are the old maps with every parameter's effect applied in order |
| RequestBuilding.ItemName | src/main/java/com/collection/creator/service/PostmanCollectionService.java:231 | the item name is the pattern, '_' and the method's name |
| RequestBuilding.ItemNameInjective | src/main/java/com/collection/creator/service/PostmanCollectionService.java:231 | two items with the same name come from the same pattern and the same method |
| RequestBuilding.CreateHeaders | src/main/java/com/collection/creator/service/PostmanCollectionService.java:250-262 | one header with the configured name, value and type when authorization is enabled, none otherwise |
| RequestBuilding.CreateBody | src/main/java/com/collection/creator/service/PostmanCollectionService.java:267-279 | fails exactly when serialisation throws; otherwise mode "raw", language "json", raw text = the map's JSON |
| RequestBuilding.QueryPairs | src/main/java/com/collection/creator/service/PostmanCollectionService.java:290-292 | the i-th pair is the i-th visited key, "=", and that key's value as string concatenation prints it |
| JavaStrings.JoinFront | src/main/java/com/collection/creator/service/PostmanCollectionService.java:293 | `String.join` read from the front: the first part, the separator, then the remaining parts joined |
| RequestBuilding.BuildUrl | src/main/java/com/collection/creator/service/PostmanCollectionService.java:284-297 | base + path when the map is empty; otherwise base + path + "?" + the pairs joined by "&", visiting every key exactly once in some order |
| RequestBuilding.UrlStartsWithBaseAndPath | src/main/java/com/collection/creator/service/PostmanCollectionService.java:285 | every URL starts with the base URL followed by the path |
| RequestBuilding.EnumeratesLength | src/main/java/com/collection/creator/service/PostmanCollectionService.java:290-292 | the query string holds exactly as many pairs as the map has entries |
| RequestBuilding.SingletonEnumeration | src/main/java/com/collection/creator/service/PostmanCollectionService.java:290-292 | a map with one key is walked in one way only |
| RequestBuilding.SingleParamUrl | src/main/java/com/collection/creator/service/PostmanCollectionService.java:284-297 | with one query parameter the URL is fully determined: base + path + "?key=value" |
| RequestBuilding.CreateItem | src/main/java/com/collection/creator/service/PostmanCollectionService.java:227-245 | fails exactly when there is a body and serialising it throws; otherwise it gives the name, the upper-case method, the headers, a body only when the body map is non-empty, and the URL, all as above |
| CollectionAssembly.DetermineBaseUrl | src/main/java/com/collection/creator/service/PostmanCollectionService.java:90-95 | a non-blank configured base URL wins; otherwise the argument, and "" for null |
| CollectionAssembly.CreateCollectionInfo | src/main/java/com/collection/creator/service/PostmanCollectionService.java:117-122 | the info carries the configured collection name and schema |
| CollectionAssembly.DefaultCollectionInfo | src/main/java/com/collection/creator/config/PostmanCollectionProperties.java:140-145 | by default the collection is "API Collection" with the v2.0.0 schema, and the blank default base URL defers to the argument |
| CollectionAssembly.Row | src/main/java/com/collection/creator/service/PostmanCollectionService.java:145-148 | the inner loop pairs one pattern with every method, in order |
| CollectionAssembly.Expansion | src/main/java/com/collection/creator/service/PostmanCollectionService.java:144-149 | every pair comes from the route's patterns and methods |
| CollectionAssembly.ExpansionAt | src/main/java/com/collection/creator/service/PostmanCollectionService.java:144-149 | the item for pattern i and method j sits at index i * (number of methods) + j: pattern outer, method inner |
| CollectionAssembly.ExpansionSize | src/main/java/com/collection/creator/service/PostmanCollectionService.java:144-149 | a route expands into (number of patterns) * (number of methods) items |
| CollectionAssembly.ExpansionDistinct | src/main/java/com/collection/creator/service/PostmanCollectionService.java:132-133 | distinct patterns and distinct methods give distinct pairs |
| CollectionAssembly.AppendRouteItems | src/main/java/com/collection/creator/service/PostmanCollectionService.java:130-153 | the list only grows, and stays unchanged for a null pattern condition, no patterns or no methods; exactly, it is the old list plus the route's contribution: nothing when serialisation fails, otherwise one item per pattern and method, in order, all sharing one extraction |
| CollectionAssembly.CreateCollectionItems | src/main/java/com/collection/creator/service/PostmanCollectionService.java:127-156 | every returned item's URL starts with the base URL and every item carries exactly the configured authorization header; the list is the routes' contributions concatenated in table order |
| CollectionAssembly.ContributionAt | src/main/java/com/collection/creator/service/PostmanCollectionService.java:130-153 | the r-th chunk is what the r-th route of the table contributes |
| CollectionAssembly.FlattenPrefix | src/main/java/com/collection/creator/service/PostmanCollectionService.java:127-156 | the items of the earlier routes stay at the front of the list: the list only grows |
| CollectionAssembly.FlattenMember | src/main/java/com/collection/creator/service/PostmanCollectionService.java:127-156 | every item of the list belongs to some route's contribution |
| CollectionAssembly.RouteItemCount | src/main/java/com/collection/creator/service/PostmanCollectionService.java:144-149 | a route whose serialisation succeeds contributes exactly (number of patterns) * (number of methods) items |
| CollectionAssembly.SingleItemRoute | src/main/java/com/collection/creator/service/PostmanCollectionService.java:144-149 | a route with one pattern and one method whose serialisation succeeds yields exactly one item, for that pattern and method |
| CollectionAssembly.RouteItemNamesDistinct | src/main/java/com/collection/creator/service/PostmanCollectionService.java:132-149 | the items of one route have pairwise distinct names |
| CollectionAssembly.ChunkItem | src/main/java/com/collection/creator/service/PostmanCollectionService.java:144-147 | each item of a route was built for one of its patterns and methods from the route's maps |
| CollectionAssembly.EveryUrlStartsWithBaseUrl | src/main/java/com/collection/creator/service/PostmanCollectionService.java:284-285 | every item's URL in the collection starts with the base URL |
| CollectionAssembly.EveryItemHeaders | src/main/java/com/collection/creator/service/PostmanCollectionService.java:250-262 | every item in the collection carries the configured authorization header when it is enabled and no header otherwise |
| CollectionAssembly.BuildPostmanCollection | src/main/java/com/collection/creator/service/PostmanCollectionService.java:100-112 | the document holds the collection info and the routes' contributions in order |
| CollectionAssembly.GenerateCollection | src/main/java/com/collection/creator/service/PostmanCollectionService.java:76-85 | the document is built for the determined base URL; the path returned is the configured full path, before it is made absolute |
| CollectionAssembly.IntParamExtracted | src/main/java/com/collection/creator/service/PostmanCollectionService.java:195-222 | an `int id` query parameter without default gives the query map {id: 0} and no body |
| CollectionAssembly.SingleIntQueryParamRoute | src/main/java/com/collection/creator/service/PostmanCollectionService.java:127-156 | GET "/users/{id}" with that parameter gives one item "/users/{id}_GET", without a body, at base + "/users/{id}?id=0" |
| CollectionAssembly.IntParamItem | src/main/java/com/collection/creator/service/PostmanCollectionService.java:284-297 | an item built without a body map and with the query map {name: 0} has no body and the URL base + path + "?name=0" |
| CollectionAssembly.NameAgeBodyRoute | src/main/java/com/collection/creator/service/PostmanCollectionService.java:184-190 | POST "/users" with a body of fields name:String and age:int serialises the map {name: "", age: 0} into one item "/users_POST" without a query string |
| CollectionAssembly.NameAgeExtracted | src/main/java/com/collection/creator/service/PostmanCollectionService.java:184-190 | a body parameter with fields name:String and age:int gives the body map {name: "", age: 0} and an empty query map |

## Left out

- Spring introspection is not modelled: the bean lookup, `getHandlerMethods`, reflection over parameters and fields, and `FieldUtils.getAllFieldsList`. Its results are the inputs of type `Route`.
- Pattern and method sets are sequences in iteration order. Their duplicate-freedom is a precondition of `RouteItemNamesDistinct` only.
- The JSON serialiser is uninterpreted. The body text is whatever the serialiser returns for the map, so the JSON form of the placeholders, including key order, is not modelled.
- `HashMap` iteration order is not modelled. `BuildUrl` may emit the query pairs in any order, so no claim is made that two generations produce the same URL.
- In the code every item of a route walks the same unchanged query map, so all of them list the query pairs in one order. The model chooses an order per item, so it does not state that the items of one route share their query order.
- `writeCollectionToFile` is left out: pretty-printing, creating the directory and writing the file are I/O. `GenerateCollection` returns the document and the path instead of writing.
- GenerateCollection: returns the configured full path as it stands, not the absolute form that `toAbsolutePath` gives (PostmanCollectionService.java:319). The failures of the write are not modelled either: serialising the whole document (:303-304), creating the directories (:310) and writing the file (:317) can all throw `IOException`.
- Join: its own contract pins only the cases of zero and one part. The general case is stated by `JoinFront`.
- RemoveAll: its own contract states only that the text gets shorter. Which characters are deleted is stated by `RemoveAllOnlyDeletes`, `RemoveAllAbsent` and `RemoveAllFirstOccurrence`, which together determine the result.
- Logging is left out. It has no effect on the result.
- The floating-point zeros are symbolic values. They print as "0.0", and no arithmetic is involved.
- `ToUpper` covers ASCII letters only. Method names are ASCII, so nothing is lost for the generator's use.
- Null configuration values are not modelled: every configured string is present. A null apiPostFix is modelled as `None`.
- The only exceptions modelled inside a route are two: a null path-pattern condition, raised before any item is added, and `JsonProcessingException`. Other runtime failures of reflection or the framework are not modelled.
- The enabling switch and the auto-configuration that calls the service are outside the modelled core.
- `Item.response` is never set by the generator and is not part of the model's `Item`.
