# CRUD scaffolding generator, modelled in Dafny

The generator takes a table or model name, a primary-key name and an ordered
column list (`name`, `type`, `nullable`). From them it writes the source text of
five artefacts:

- a Sequelize model;
- an Express controller;
- a service;
- a router;
- Swagger YAML.

It has two families of generators:

- The **legacy** ones (`generateController`, `generateService`, `generateRoutes`)
  depend only on the model name.
- The **enhanced** ones (`generateEnhancedModel/Controller/Service/Routes` and
  the `generateSwagger*` family) map the column list into field blocks,
  presence checks, trimmed assignments, an attribute projection, query filters
  and documentation.

Every generator is written as a function from its arguments to text, and the
model treats each one as a pure function.

The same generators exist in three copies:

- `index.js` writes real newlines between the attributes of the projection.
  Its enhanced controller and service are at `index.js:359-641`.
- `utils/crud-generators.js` writes a literal backslash-n there. Its code sits
  80 lines below `index.js` from the enhanced model on. This copy does not
  parse: the log lines of the generated controller and service (from
  `utils/crud-generators.js:479` on) write `` \\` ``: an escaped backslash
  and then a backtick, so that backtick closes the template literal opened at
  `utils/crud-generators.js:457` (and at `:618` for the service) and the
  `${...}` that follows is a syntax error. The module cannot be loaded, so
  none of its generators runs.
- `utils/crud-generators-fixed.js` has the same legacy and enhanced generators
  as `utils/crud-generators.js`, 156 lines higher for the enhanced ones
  (`utils/crud-generators-fixed.js:283-565`), with the log lines written
  `` \` ``, which parse. The created-record log line drops its name part. It also
  has a reduced example-value helper, a name-blind field description,
  placeholder Swagger generators and a legacy router without comments.

The enhanced controller and service members describe the generator as
`index.js:296-658` and `utils/crud-generators-fixed.js:220-582` write it; their
rows cite `index.js` and name the matching lines of the other two copies. The
remaining rows that cite `utils/crud-generators.js` describe code that is the
same text in `index.js` (apart from separators and marker bytes), 80 lines
higher for the enhanced model, routes and Swagger generators, 90 lines lower
for the legacy controller and service, and at `index.js:1265-1436` for the
legacy router.

The model follows the source's form: datatypes, functions and lemmas.

- Each renderer builds a structured value, in the generated code's own terms:
  - model fields;
  - handlers with their guards and replies;
  - service functions with their queries and catch blocks;
  - route tables;
  - Swagger operations and schemas.
- Two fragments are rendered as text with `Join`, because the source itself
  re-parses or lays them out:
  - the service's attribute projection, which the get-by-id query splits and
    slices;
  - the request schema's `required:` list.
- Separators are parameters, so one definition covers both the newline copy
  and the backslash-n copies.
- The fixed copy's differing helpers are separate members in `FixedVariant`.

Modules:

- `Text`: JavaScript's `join`, `split`, `indexOf`/`includes`, `slice(0, -k)` and ASCII case mapping.
- `Naming`: the lower, capitalised, plural and table names, and the not-found codes.
- `Descriptor`: columns and the required-column filter.
- `TypeMaps`: `getSequelizeType` and `getSwaggerType`.
- `FieldHints`: `generateExampleValue` and `generateFieldDescription`.
- `Artifacts`: the shapes of the generated controllers, services and routers.
- `Legacy`: the legacy generators.
- `Enhanced`: the enhanced model, controller, service and routes.
- `Swagger`: the Swagger paths, request schemas, response schemas and the combined document.
- `FixedVariant`: the helpers that differ in `utils/crud-generators-fixed.js`.

A handler's behaviour is stated with `Artifacts.Respond`. Given the set of
conditions that hold, it returns the reply of the first guard whose condition
holds, and the success reply when none does. This is how the generated code
runs its `if (...) return res.status(...)` checks in order. A statement that
throws before the last service call, such as `title.trim()` on a value that is
not a string, is a guard of the same kind: its reply is the one the handler's
`catch` block sends.

The type tables and the marker table are JavaScript object literals read as
`table[type] || default`. Such a lookup also finds the twelve properties every
object inherits from `Object.prototype` (`constructor`, `toString`,
`__proto__`, ...). The model keeps that: for those names the Swagger type and
the description marker are the member's text (a native function as V8 prints
it, or `[object Object]`), and the enhanced model generator throws, because the
member has no `includes` method.

## Model

| member | source | states |
|---|---|---|
| Text.IndexOf | utils/crud-generators.js:1286-1315 | `indexOf` gives the leftmost occurrence or -1, and -1 exactly when the substring occurs nowhere; `includes` is `indexOf != -1` |
| Text.SplitJoin | index.js:572 | splitting the joined list on the same separator gives back the list, when the list is non-empty and the separator's first character occurs in no element (the same code: utils/crud-generators.js:652, utils/crud-generators-fixed.js:496) |
| Text.SplitJoinNeedsFirstCharFree | index.js:572 | "no element contains the separator" is not enough: `["a", ""]` joined with `"aa"` splits into `["", "a"]` (the same code: utils/crud-generators.js:652, utils/crud-generators-fixed.js:496) |
| Text.DropLast | index.js:572 | `slice(0, -k)` keeps the first `length - k` elements in order, and gives the empty list when there are at most `k` or when `k` is 0 (`-0` is the end index 0) (the same code: utils/crud-generators.js:652, utils/crud-generators-fixed.js:496) |
| Text.ToLowerEqualIff | utils/crud-generators.js:7 | two names lower-case to the same string exactly when they differ only in letter case |
| Text.ToUpperCaseBlind | index.js:424 | names that differ only in letter case upper-case to the same string (the same code: utils/crud-generators.js:504, utils/crud-generators-fixed.js:348) |
| Naming.Capitalize | index.js:361 | the capitalised name has the same length, its first character upper-cased and the rest unchanged (the same code: utils/crud-generators.js:441, utils/crud-generators-fixed.js:285) |
| Naming.Plural | utils/crud-generators.js:8 | the plural is the lower-cased name followed by `s` |
| Naming.TableName | utils/crud-generators.js:379 | the table name is the capitalised name followed by `s` |
| Naming.NotFoundCodeIgnoresCapitalization | index.js:424 | the enhanced code (capitalised name upper-cased + `_NOT_FOUND`) equals the legacy code (name upper-cased + `_NOT_FOUND`) (the same code: utils/crud-generators.js:504, utils/crud-generators-fixed.js:348) |
| Naming.CaseVariantsShareNames | index.js:360-363 | names that differ only in case share their lower name, plural and not-found code (the same code: utils/crud-generators.js:440-443, utils/crud-generators-fixed.js:284-287) |
| Naming.LegacyCodesAgree | utils/crud-generators.js:22 | the legacy list code `<NAME>S_NOT_FOUND` is the single-record code of the name with `s` appended |
| Naming.ProductNames | utils/crud-generators.js:377-379 | for `product`: `Product`, `Products`, `products` and `PRODUCT_NOT_FOUND` |
| Descriptor.RequiredIndicesSound | index.js:366-367 | each index the required filter keeps points to a non-nullable column whose name is the corresponding required name (the same code: utils/crud-generators.js:446-447, utils/crud-generators-fixed.js:290-291) |
| Descriptor.RequiredIndicesIncreasing | index.js:366-367 | the filter keeps columns in their input order (the same code: utils/crud-generators.js:446-447, utils/crud-generators-fixed.js:290-291) |
| Descriptor.RequiredIndicesComplete | index.js:366-367 | every non-nullable column is kept (the same code: utils/crud-generators.js:446-447, utils/crud-generators-fixed.js:290-291) |
| Descriptor.RequiredNamesSelect | utils/crud-generators.js:986 | the required names are the non-nullable columns' names, all of them, in column order |
| Descriptor.RequiredNamesEmptyIff | utils/crud-generators.js:987 | there are no required names exactly when every column is nullable |
| Descriptor.RequiredNamesMembers | utils/crud-generators.js:986 | a name is required exactly when some non-nullable column has it |
| TypeMaps.SequelizeType | index.js:1175-1188 | the nine named types map to their table entries, an inherited property name to that inherited member, and every other string to `STRING(255)` |
| TypeMaps.SwaggerType | index.js:1190-1203 | the nine named types map to their table entries, an inherited property name to the member's text, and every other string to `string` |
| TypeMaps.LengthValidatorIff | utils/crud-generators.js:383-386 | the storage type is a string containing `STRING` exactly for STRING, ENUM and the unknown types that are not inherited property names |
| TypeMaps.SwaggerStringIff | utils/crud-generators.js:1270-1283 | the Swagger type is `string` exactly for STRING, DATE, TEXT, ENUM and the unknown types that are not inherited property names |
| TypeMaps.TablesAgree | utils/crud-generators-fixed.js:596-624 | the two tables agree: integer, number, boolean and object types correspond to INTEGER, DECIMAL(10,2)/FLOAT, BOOLEAN and JSON storage, and the documentation shows a member's text exactly where the model finds an inherited member |
| FieldHints.SniffLower | utils/crud-generators.js:1286-1315 | the name tests run in a fixed order: the result's word occurs and no earlier test's word does; no result means no word occurs |
| FieldHints.SniffIsFirstHit | utils/crud-generators.js:1289-1315 | the hint whose test is the first to succeed on the lower-cased name is the one chosen |
| FieldHints.TypeExampleDefault | utils/crud-generators.js:1318-1338 | the type switch gives the generic example exactly for types outside the nine named ones |
| FieldHints.TypeMarker | utils/crud-generators.js:1238-1250 | a named type gets its marker, an inherited property name the member's text, and every other type the 📝 marker |
| FieldHints.FieldDescription | utils/crud-generators.js:1204-1252 | every description ends in ` (Optional)` exactly when the field is nullable, and in ` (Required)` exactly when it is not |
| FieldHints.FirstHitDecides | index.js:1124-1172 | descriptions and example values run the same tests in the same order: the first hit decides both, whatever the type |
| FieldHints.NoHitFallsBackToType | utils/crud-generators.js:1237-1251 | with no hit, the example comes from the type switch and the description is the type's marker, the name and ` field`; an unknown type gives the generic example, and 📝 unless it is an inherited property name, which gives the member's text |
| FieldHints.ExampleIgnoresTypeOnHit | index.js:1205-1259 | a name that hits a test gets the same, non-generic example whatever its type |
| FieldHints.UserEmailExample | index.js:1205-1259 | (`STRING`, `userEmail`) gives `"user@example.com"` |
| FieldHints.NameBeatsEmail | utils/crud-generators.js:1289-1294 | `emailName` contains both words; the name test runs first and wins |
| Artifacts.RespondUniformGuards | index.js:366-375 | with guards that all send the same reply, a handler sends it exactly when one of their conditions holds, and succeeds otherwise (the same code: utils/crud-generators.js:446-455, utils/crud-generators-fixed.js:290-299) |
| Artifacts.RespondAppend | index.js:443-455 | guards tested in two runs: the second run is reached only when no guard of the first fires (the same code: utils/crud-generators.js:523-535, utils/crud-generators-fixed.js:367-379) |
| Artifacts.Propagate | index.js:626-632 | `throw error` keeps the code; the wrapping catch gives `DATABASE_ERROR`; the update catch keeps the code exactly when it is the not-found code or already `DATABASE_ERROR` (the same code: utils/crud-generators.js:706-712, utils/crud-generators-fixed.js:550-556) |
| Legacy.ControllerDependsOnlyOnName | utils/crud-generators.js:5-10 | the legacy controller reads neither the primary key nor the required fields |
| Legacy.CreateRejectsOnlyEmptyBody | utils/crud-generators.js:41-66 | create answers 400 exactly when the body is missing or empty, and 201 otherwise; a blank field is never rejected |
| Legacy.EmptyListIsNotFound | utils/crud-generators.js:14-39 | the legacy list answers 404 with `<NAME>S_NOT_FOUND` on an empty result and 200 otherwise |
| Legacy.NamesAgree | utils/crud-generators.js:202-209 | every route binds a handler the controller exports, every handler calls only service functions, and the controller loads the service by its file name |
| Legacy.DocsListEveryStatus | utils/crud-generators.js:217-370 | each route's `@swagger` comment lists every status its handler can send |
| Legacy.RouteTable | utils/crud-generators.js:248-370 | the legacy router binds GET `/`, POST `/`, PUT `/:id`, DELETE `/:id`, in that order |
| Legacy.ServiceQueries | utils/crud-generators.js:128-200 | list filters `Deleted: 'F'` and `Active: 'T'`; update filters on the primary key alone and yields null on zero rows; delete sets `Deleted: 'T'` and reports `updated > 0`; every failure is rethrown unchanged |
| Legacy.NoRowIsNotFound | utils/crud-generators.js:162-178 | an update or delete that changes no row reaches the client as 404 with `<NAME>_NOT_FOUND` |
| Enhanced.ModelLayout | utils/crud-generators.js:376-437 | the key block comes first (the only primary key, auto-increment INTEGER), then one block per column in order, then exactly Active, Deleted, CreatedAt, UpdatedAt, CreatedBy, UpdatedBy; a column gets `len: [1, 255]` exactly when it is STRING, ENUM or unknown |
| Enhanced.ModelThrowsIff | utils/crud-generators.js:382-388 | the model generator throws exactly when some column's type is an inherited property name |
| Enhanced.RequiredChecksInOrder | index.js:366-375 | the create guards start with one 400 `INVALID_INPUT` presence check per non-nullable column, in column order, and none when every column is nullable (the same code: utils/crud-generators.js:446-455, utils/crud-generators-fixed.js:290-299) |
| Enhanced.CreateRejectsBlankRequired | index.js:443-471 | create answers 400 `INVALID_INPUT` exactly when some non-nullable column is blank; otherwise 500 exactly when some STRING column's value is not a string (omitted included), because its `.trim()` throws; otherwise 201 (the same code: utils/crud-generators.js:523-551, utils/crud-generators-fixed.js:367-395) |
| Enhanced.TrimmedNamesMembers | index.js:451 | a field is trimmed exactly when some STRING column carries its name (the same code: utils/crud-generators.js:531, utils/crud-generators-fixed.js:375) |
| Enhanced.UpdateResponds | index.js:475-519 | update answers 400 without an id, then 404 with `<NAME>_NOT_FOUND` when the record is missing, then 500 when a STRING column's value is present but not a string, and 200 otherwise (the same code: utils/crud-generators.js:555-599, utils/crud-generators-fixed.js:399-443) |
| Enhanced.OmittedOptionalStringFails | index.js:445-468 | a create request that leaves out an optional STRING column is answered 500, where the intended handler answers 201 (the same code: utils/crud-generators.js:525-548, utils/crud-generators-fixed.js:369-392) |
| Enhanced.IntendedCreateAccepts | index.js:366-375 | with the trims applied only to strings, create answers 400 exactly when a non-nullable column is blank, and 201 otherwise (the same code: utils/crud-generators.js:446-455, utils/crud-generators-fixed.js:290-299) |
| Enhanced.TrimOnlyStrings | index.js:445-503 | create and update copy the same fields in column order; `.trim()` is applied exactly to columns typed `STRING`; create defaults Active to `T` and stamps CreatedBy, update stamps UpdatedBy (the same code: utils/crud-generators.js:525-583, utils/crud-generators-fixed.js:369-427) |
| Enhanced.EmptyListContrast | index.js:385-392 | the enhanced list answers 200 with an empty list where the legacy list answers 404 (the same code: utils/crud-generators.js:465-472, utils/crud-generators-fixed.js:309-316) |
| Enhanced.FailuresAre500 | index.js:400-519 | every handler answers 500 to any failure; the update service's not-found error therefore reaches the client as 500 (the same code: utils/crud-generators.js:480-599, utils/crud-generators-fixed.js:324-443) |
| Enhanced.AllAttributes | index.js:536 | the attribute list has one entry per column plus seven (the same code: utils/crud-generators.js:616, utils/crud-generators-fixed.js:460) |
| Enhanced.AttributesRoundTrip | index.js:537 | splitting the rendered attribute list on its separator gives back the quoted attributes (the same code: utils/crud-generators.js:617, utils/crud-generators-fixed.js:461) |
| Enhanced.ByIdProjection | index.js:571-573 | get-by-id projects the primary key, the columns, Active, CreatedAt, UpdatedAt and CreatedBy; the two dropped entries are UpdatedBy and Deleted (the same code: utils/crud-generators.js:651-653, utils/crud-generators-fixed.js:495-497) |
| Enhanced.ByIdProjectionForSourceSeparators | index.js:537-572 | for both the newline and the backslash-n separator, that projection holds whenever no name contains a comma |
| Enhanced.ServiceFilters | index.js:543-580 | list filters `Deleted: 'F'` and `Active: 'T'` over every attribute, DESC on the key; get-by-id filters on the key and `Deleted: 'F'` only (the same code: utils/crud-generators.js:623-660, utils/crud-generators-fixed.js:467-504) |
| Enhanced.UpdateService | index.js:601-633 | update stamps UpdatedAt, filters on the key and `Deleted: 'F'`, throws the not-found code on zero rows, rethrows that code unchanged and wraps everything else as `DATABASE_ERROR` (the same code: utils/crud-generators.js:681-713, utils/crud-generators-fixed.js:525-557) |
| Enhanced.RouteTable | utils/crud-generators.js:723-738 | the enhanced router binds GET `/`, GET `/:id`, POST `/`, PUT `/:id` and no DELETE |
| Enhanced.NamesAgree | utils/crud-generators.js:715-738 | route i binds handler i, handlers call only service functions, and controller and service export the same names |
| Swagger.ColumnExamples | utils/crud-generators.js:803 | one example per column, in order, each from the column's type and name |
| Swagger.PathsOperations | utils/crud-generators.js:772-980 | the paths document lists, in order, the list, create, get-by-id and update operations |
| Swagger.FirstIndex | utils/crud-generators.js:1061 | `columns.find` picks the first column with the name, or none |
| Swagger.ResponseProperties | utils/crud-generators.js:1041-1071 | one response property per listed name, in order |
| Swagger.RequiredList | utils/crud-generators.js:986-1031 | the create schema requires exactly the non-nullable columns in order, the text is empty exactly when all are nullable, and the update schema requires nothing |
| Swagger.RequiredTextLists | utils/crud-generators.js:987-988 | the rendered `required:` text starts with its header, and the rest splits back into the required names |
| Swagger.ConstraintsByType | utils/crud-generators.js:1001 | STRING gets minLength 1 and maxLength 255, INTEGER gets minimum 0, other types get neither |
| Swagger.RequestPropertiesFollowColumns | utils/crud-generators.js:991-1031 | one property per column, in order, with its Swagger type, nullability, constraints and an Optional/Required description, then Active; create and update share the column properties, and only create defaults Active to `T` |
| Swagger.ResponseLayout | utils/crud-generators.js:1041 | the response properties are the key, the columns, Active, CreatedAt, UpdatedAt, CreatedBy and UpdatedBy; Deleted appears only when the key or a column is named so |
| Swagger.ClassifyPrecedence | utils/crud-generators.js:1044-1065 | a property is classified by precedence: primary key, then timestamps, then actor ids, then Active, then the first column with that name |
| Swagger.NoUnlistedProperty | utils/crud-generators.js:1060-1065 | every listed property is classified; the fallback for an unlisted property is never reached |
| Swagger.ResponseColumnMatchesRequest | utils/crud-generators.js:1060-1065 | a column property in the response has the request property's type, description and example |
| Swagger.EmptyTypeReadsAsString | utils/crud-generators.js:1060-1064 | the fallback to `'string'` for a column without a type changes nothing: the type `""` is documented exactly like `string` |
| Swagger.RefsResolve | utils/crud-generators.js:772-980 | every schema reference in the paths names a schema the request or response sections define |
| Swagger.SchemaNames | utils/crud-generators.js:1009-1171 | the schemas defined are the two request schemas, the five response schemas and ErrorResponse |
| Swagger.ListDocumented | utils/crud-generators.js:784-822 | the list operation documents every status the list handler sends, and also a 404 it never sends |
| Swagger.GetDocumented | utils/crud-generators.js:868-916 | the get-by-id operation documents every status its handler sends |
| Swagger.CreateDocumented | utils/crud-generators.js:824-866 | the create operation documents every status its handler sends |
| Swagger.UpdateDocumented | utils/crud-generators.js:918-975 | the update operation documents every status its handler sends |
| Swagger.StatusesDocumented | utils/crud-generators.js:772-980 | the four documented operations pair with the four handlers and document every status each sends |
| Swagger.ExamplesFollowColumns | utils/crud-generators.js:777-954 | each operation's record example is the key, the column examples in order, then the system fields; request examples are the column examples plus Active |
| Swagger.SentCodesUndocumented | utils/crud-generators.js:1180-1199 | `INVALID_INPUT` and `<NAME>_NOT_FOUND`, which the handlers send, are missing from the ErrorResponse code enum |
| Swagger.BundleKeepsSections | utils/crud-generators.js:740-770 | the bundle returns the three sections unchanged, and combined is a header with the upper-cased name followed by paths, request and response sections, in that order |
| FixedVariant.ReducedTypeExample | utils/crud-generators-fixed.js:640-652 | the reduced switch gives the generic example exactly for types other than STRING, INTEGER, BOOLEAN and DATE |
| FixedVariant.ReducedAgreesWithFull | utils/crud-generators-fixed.js:626-653 | the reduced example equals the full one when the full one picks the name, email or phone hint, or when no hint applies and the type is one of the four |
| FixedVariant.ReducedFallsBack | utils/crud-generators-fixed.js:626-653 | without name, email or phone in the name, TEXT, DECIMAL, FLOAT, ENUM, JSON and unknown types all give the generic example |
| FixedVariant.CostExamplesDiffer | utils/crud-generators-fixed.js:626-653 | a DECIMAL column `cost` gets `99.99` from the full helper and the generic example from the reduced one |
| FixedVariant.BlindFieldDescription | utils/crud-generators-fixed.js:655-658 | the description ends in ` (Optional)` exactly when nullable, and in ` (Required)` otherwise |
| FixedVariant.BlindDescriptionAgreesAfterMarker | utils/crud-generators-fixed.js:655-658 | the description ignores the type; with no hint it matches the full description after their different leading markers |
| FixedVariant.PlaceholdersDependOnlyOnCapitalizedName | utils/crud-generators-fixed.js:584-593 | the three sections are constants, and two inputs give the same bundle exactly when their names capitalise alike |
| FixedVariant.PlaceholdersDisagree | utils/crud-generators-fixed.js:661-663 | the bundle's sections differ from the constants the stand-alone section generators return |
| FixedVariant.PlainRoutesAreStrippedLegacy | utils/crud-generators-fixed.js:202-217 | the comment-free router is the documented legacy router with its comments removed: GET `/`, POST `/`, PUT `/:id`, DELETE `/:id` |

## Left out

- The Express app, its static serving and listener, and the serverless handlers: these are HTTP plumbing around the generators.
- Running the generated code is not modelled: no Sequelize queries, logging or HTTP. The model states what the generated code is written to do, such as guards, replies, queries and catch blocks.
- The exact YAML and JavaScript text is not modelled beyond the attribute projection and the `required:` list. Indentation, prose and the comments in generated files are left out.
- Whether the generated JavaScript is well-formed is not modelled. For example, an empty column list yields `{ , Active = 'T' }`.
- The generators do not validate their input, so no input error is modelled. Names are strings and `nullable` is a boolean.
- Letter case is mapped for ASCII only; JavaScript maps all of Unicode.
- FieldHints: the markers are the emoji code points `index.js` writes. `utils/crud-generators.js` stores the same markers double-encoded (mojibake), and the model does not reproduce those bytes. `FixedVariant.MangledMarker` does reproduce the fixed copy's prefix, as the four code points it decodes to.
- Enhanced.ByIdProjection: assumes the separator's first character (`,`) occurs in no attribute name. This is a sufficient condition for the split round trip, not a limit of the source: every attribute is quoted with `'` and neither separator contains `'`, so the source's split cuts a name only when the name contains the whole separator. Names with a plain comma are therefore handled correctly by the source but not covered by this lemma.
- The enhanced create and update destructure `req.body`; a request whose body is not an object at all (so destructuring throws) is not modelled. The model takes the body to be an object and states each field's value by conditions such as `FieldBlank` and `NotAString`.
- The backslash-n separators of `utils/crud-generators.js` and `utils/crud-generators-fixed.js` are not reproduced byte for byte. The separator is a parameter instead.
- The log lines of the generated code are not modelled, and neither is their escaping. In `utils/crud-generators.js` (lines 479, 513, 515, 543, 592, 594, 645 and 683) that escaping is a syntax error, so the module does not load and its generators never run; the model describes the generators as `index.js` and `utils/crud-generators-fixed.js` write them.
- The `UpdateData` payload's "only when `!== undefined`" rule is modelled by construction. It is written into the payload's shape, so no lemma states it separately.

## Findings

| source | as written | input that shows it | evidently intended | confidence | as-written member | corrected member |
|---|---|---|---|---|---|---|
| utils/crud-generators.js:531, index.js:451, utils/crud-generators-fixed.js:375 | the enhanced create calls `.trim()` on every STRING column's value, so an omitted, null or non-string value throws and the request is answered 500 | a nullable STRING column `title` and a body without `title` | an optional field may be left out: only the presence checks reject a request, and only strings are trimmed | not executed; high | Enhanced.OmittedOptionalStringFails | Enhanced.IntendedCreateAccepts |
