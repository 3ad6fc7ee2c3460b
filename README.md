# onadata API core, modelled in Dafny

This project models five pieces of onadata's REST API layer (a Python 2
Django / Django REST Framework application for collecting survey data):

- **The user profile viewset.** This covers:
  - how a profile is looked up by primary key or by username;
  - which profiles are listed;
  - the month/year guard of the monthly-submissions endpoint;
  - password changes;
  - the non-overwriting metadata patch, with its two JSON helpers
    `check_if_key_exists` and `replace_key_value`.
- **Chart tools.** This covers:
  - the mapping from XLSForm field types to chart data types;
  - the normalisation of time strings for JavaScript;
  - the chart data built for one field and for a whole form.
- **The multi-lookup router.** The router builds URL regexes for viewsets
  that are addressed by several lookup fields. The model covers its lookup
  regexes, its routes (including those of decorated methods) and the URL
  patterns it emits for each registration.
- **The form serializers.** This covers:
  - the manifest and form-list fields (file name, format, media URL, hash,
    version);
  - the metadata lookup;
  - the per-user permission summary;
  - the cached getters for users, Enketo URLs, metadata and form versions.
- **The permission classes.** This covers:
  - the HTTP-method-to-permission map;
  - the model-permission check that the object-permission mixins share;
  - the rules with which each viewset widens or narrows that check.

Modules:

| file | module | contents |
|---|---|---|
| wrappers.dfy | Wrappers | `Option` and `Result` |
| text.dfy | Text | ASCII case folding, digit strings, `int()` and `str()` on integers, `split`/`join`, string order |
| sorting.dfy | Sorting | insertion sort over a total preorder, with its sortedness and permutation lemmas |
| profile_metadata.dfy | ProfileMetadata | JSON values with ordered objects, and the key search, replace and merge of the profile patch |
| user_profile_viewset.dfy | UserProfileViewset | the user profile viewset |
| chart_tools.dfy | ChartTools | chart tools |
| lookup_router.dfy | LookupRouter | `MultiLookupRouter` and its route and pattern construction |
| xform_serializer.dfy | XFormSerializer | the form serializers and the cache they share |
| permissions.dfy | Permissions | the permission classes |

Conventions used throughout:

- **Strings.** Python 2 strings are modelled as `seq<char>`, with ASCII
  semantics (`\d`, `isdigit`, `lower`).
- **Dictionaries.** A dictionary whose order shows in the output is an
  ordered list of pairs. A Python 2 dictionary that is iterated is taken in
  order of first insertion.
- **Exceptions.** An exception becomes a `Result` error, or a `Crashed` /
  `Raised` outcome.
- **Framework and database.** Calls into Django, DRF, the database and the
  Enketo service are parameters or inputs of the model.

## Model

| member | source | states |
|---|---|---|
| Text.SplitCount | onadata/libs/serializers/xform_serializer.py:358 | `split(' ')` yields one part more than there are separators |
| Text.JoinSplit | onadata/libs/serializers/xform_serializer.py:358 | joining the parts of a split with the same separator gives back the original string |
| Text.ParseInt | onadata/apps/api/viewsets/user_profile_viewset.py:119-120 | `int(lookup)` succeeds only on a string made of digits, signs and whitespace that holds at least one digit |
| Text.ParseIntAccepts | onadata/apps/api/viewsets/user_profile_viewset.py:119-120 | `int()` accepts a run of digits with an optional sign, whitespace around it and whitespace between the sign and the digits, and reads it as its value, negated after `-`; whitespace is the ASCII set `int()` skips on a unicode string, `\x1c`-`\x1f` included |
| Text.ParseIntOnlyNumerals | onadata/apps/api/viewsets/user_profile_viewset.py:119-120 | conversely, every string `int()` accepts is such whitespace, an optional sign, whitespace, digits and whitespace, and the answer is the digits' value under that sign |
| Text.IntToStringRoundTrip | onadata/apps/api/viewsets/user_profile_viewset.py:119-124 | `int(str(n)) == n` for every integer, so a primary key printed into a URL reads back as the same key |
| Text.StrLeIsTotalPreorder | onadata/libs/serializers/xform_serializer.py:110 | Python's string comparison, which `sort()` uses on codenames, is total and transitive |
| Sorting.SortSorted | onadata/libs/utils/chart_tools.py:72 | sorting gives an ordered sequence with the same elements (a permutation) |
| ProfileMetadata.Keys | onadata/apps/api/viewsets/user_profile_viewset.py:57-70 | the key set of a dictionary is exactly the keys of its pairs |
| ProfileMetadata.Get | onadata/apps/api/viewsets/user_profile_viewset.py:165 | a lookup succeeds exactly when the key is present |
| ProfileMetadata.Set | onadata/apps/api/viewsets/user_profile_viewset.py:165 | `d[k] = v` adds `k` to the keys and no other key |
| ProfileMetadata.SetGet | onadata/apps/api/viewsets/user_profile_viewset.py:165 | after `d[k] = v`, `d[k]` reads `v` and every other key reads what it read before |
| ProfileMetadata.SetKeepsUnique | onadata/apps/api/viewsets/user_profile_viewset.py:165 | `d[k] = v` on a dictionary never creates a second entry under `k` |
| ProfileMetadata.UpdateValues | onadata/apps/api/viewsets/user_profile_viewset.py:48-49 | after `dict.update`, a key of the changes reads the changed value and any other key its old value |
| ProfileMetadata.Update | onadata/apps/api/viewsets/user_profile_viewset.py:48-49 | after `dict.update` the keys are exactly the old keys plus the changed ones, and keys stay unique |
| ProfileMetadata.FirstObject | onadata/apps/api/viewsets/user_profile_viewset.py:66-69 | finds a dictionary held in a list, or reports that the list holds none |
| ProfileMetadata.KeyExists | onadata/apps/api/viewsets/user_profile_viewset.py:57-70 | `check_if_key_exists`: the search that KeyExistsSound, KeyExistsOnFlatDict and KeyExistsStopsAtFirstNestedDict describe |
| ProfileMetadata.KeyExistsSound | onadata/apps/api/viewsets/user_profile_viewset.py:57-70 | when `check_if_key_exists` answers true, the key occurs somewhere in the nested metadata |
| ProfileMetadata.KeyExistsOnFlatDict | onadata/apps/api/viewsets/user_profile_viewset.py:57-70 | on a dictionary with no nested dictionaries or lists, the check answers true exactly when the key is present |
| ProfileMetadata.KeyExistsStopsAtFirstNestedDict | onadata/apps/api/viewsets/user_profile_viewset.py:61-65 | the search returns from the first nested dictionary it meets, so a top-level key that comes after it is reported as missing |
| ProfileMetadata.Replaced | onadata/apps/api/viewsets/user_profile_viewset.py:41-54 | replacing keeps the dictionary's length and its keys in order |
| ProfileMetadata.ReplacedAt | onadata/apps/api/viewsets/user_profile_viewset.py:46-53 | each entry under the looked-up key is replaced (or, when both are dictionaries, updated), and any other dictionary value is descended into |
| ProfileMetadata.ReplaceKeyValue | onadata/apps/api/viewsets/user_profile_viewset.py:41-54 | the recursive walk yields the replaced dictionary described by the function |
| ProfileMetadata.ReplaceKeepsKeys | onadata/apps/api/viewsets/user_profile_viewset.py:41-54 | every key reachable without passing through the replaced key is still reachable afterwards |
| ProfileMetadata.ReplaceWithoutLookupIsIdentity | onadata/apps/api/viewsets/user_profile_viewset.py:41-54 | when the key is nowhere in the nested dictionaries, replacing changes nothing |
| ProfileMetadata.ReplacedEntries | onadata/apps/api/viewsets/user_profile_viewset.py:46-53 | an entry under the key takes the new value, or when both are dictionaries the union of both key sets; any other dictionary keeps its key set and any other value stays as it was |
| ProfileMetadata.ReplacedKeys | onadata/apps/api/viewsets/user_profile_viewset.py:46-53 | rewriting values in place neither adds nor removes a key of the dictionary walked |
| ProfileMetadata.MergeStep | onadata/apps/api/viewsets/user_profile_viewset.py:161-165 | one merge step never loses a top-level key and adds at most the incoming key |
| ProfileMetadata.Merged | onadata/apps/api/viewsets/user_profile_viewset.py:161-165 | the metadata after the loop has merged every incoming pair in order; MergeKeepsTopLevelKeys states its top-level keys |
| ProfileMetadata.MergeKeepsTopLevelKeys | onadata/apps/api/viewsets/user_profile_viewset.py:153-167 | after the merge loop the top-level keys are the old ones plus some of the incoming ones, and no others |
| ProfileMetadata.ReplacePreservesOccurrence | onadata/apps/api/viewsets/user_profile_viewset.py:162-163 | a key that was found is still present after its value is replaced |
| ProfileMetadata.MergeStepPlacesKey | onadata/apps/api/viewsets/user_profile_viewset.py:161-165 | after a step the incoming key occurs in the metadata; when it was not found, it holds the incoming value at top level |
| UserProfileViewset.LookupFilter | onadata/apps/api/viewsets/user_profile_viewset.py:99-124 | a missing lookup argument is an error; a numeric value filters on the user's primary key; any other value filters case-insensitively on the lookup field, extended by the related field's own lookup when there is one |
| UserProfileViewset.NumericLookupSelectsByPk | onadata/apps/api/viewsets/user_profile_viewset.py:119-124 | the printed form of any integer key selects that key |
| UserProfileViewset.NumeralLookupSelectsByPk | onadata/apps/api/viewsets/user_profile_viewset.py:119-124 | any value `int()` accepts, with whitespace around it or after its sign, filters on the primary key it reads as |
| UserProfileViewset.NamedLookupSelectsByName | onadata/apps/api/viewsets/user_profile_viewset.py:119-122 | a value holding a character other than a digit, a sign or whitespace is matched as a name |
| UserProfileViewset.Queryset | onadata/apps/api/viewsets/user_profile_viewset.py:90-92 | the listed profiles are exactly the active ones whose username is not the anonymous user's, compared case-insensitively |
| UserProfileViewset.MonthlyPeriod | onadata/apps/api/viewsets/user_profile_viewset.py:178-194 | the request is accepted exactly when each given month is 1-12 and each given year is four digits; a bad month is reported before a bad year; a missing parameter falls back to the current month or year |
| UserProfileViewset.FourDigitsBound | onadata/apps/api/viewsets/user_profile_viewset.py:186-188 | a four-digit year lies in 0..9999 |
| UserProfileViewset.User.constructor | onadata/apps/api/viewsets/user_profile_viewset.py:133-149 | a user starts with the given password |
| UserProfileViewset.ChangePassword | onadata/apps/api/viewsets/user_profile_viewset.py:133-149 | the password changes, with a 204 answer, exactly when a non-empty new password is given and the current one checks; otherwise the answer is 400 and nothing changes |
| UserProfileViewset.UserProfile.constructor | onadata/apps/api/viewsets/user_profile_viewset.py:151-172 | a profile starts with the given metadata |
| UserProfileViewset.StartingMetadata | onadata/apps/api/viewsets/user_profile_viewset.py:153 | `profile.metadata or {}` is the stored value or an empty dictionary, and it is a dictionary exactly when the stored value is one or is falsy |
| UserProfileViewset.PartialUpdate | onadata/apps/api/viewsets/user_profile_viewset.py:151-172 | without `overwrite=false` the framework's update runs; otherwise the saved metadata is the old metadata (or `{}`) merged with the incoming pairs in order, and a non-dictionary crashes without saving |
| ChartTools.ChartFieldDataTypes | onadata/libs/utils/chart_tools.py:8-19 | among the chartable types, exactly "select one" is categorized, exactly "integer" and "decimal" are numeric, and exactly the date and time kinds are time based |
| ChartTools.SearchDown | onadata/libs/utils/chart_tools.py:22 | finds the last `+` followed by a digit below a bound, or reports that there is none |
| ChartTools.MatchSplit | onadata/libs/utils/chart_tools.py:22-34 | the split point is the last `+` followed by a digit, which is where the greedy pattern's match starts |
| ChartTools.DigitRun | onadata/libs/utils/chart_tools.py:22 | a maximal run of digits |
| ChartTools.UtcTimeStringForJavascript | onadata/libs/utils/chart_tools.py:34-47 | the normalised time string, whose shape, cases and idempotence UtcTimeStringShape, UtcTimeStringCases and UtcTimeStringIdempotent state |
| ChartTools.UtcTimeStringShape | onadata/libs/utils/chart_tools.py:25-47 | a result keeps the text before the matched `+`, then `+` and exactly four digits, with no colon |
| ChartTools.UtcTimeStringCases | onadata/libs/utils/chart_tools.py:34-47 | a string with no `+digit` raises; a two-digit offset is padded with `00`, a four-digit one kept, and any other length raises |
| ChartTools.UtcTimeStringIdempotent | onadata/libs/utils/chart_tools.py:25-47 | normalising an already normalised time string changes nothing |
| ChartTools.FieldLabel | onadata/libs/utils/chart_tools.py:60-66 | the label fails exactly for a non-empty translation dictionary and a language index below minus the number of languages; a translated label is one of the translations |
| ChartTools.FieldLabelClampsLanguage | onadata/libs/utils/chart_tools.py:52-66 | for a multi-language label, a language index past the end picks the last language |
| ChartTools.FieldLabelFallsBackToName | onadata/libs/utils/chart_tools.py:52-69 | a plain label is used when non-empty, and otherwise the field name |
| ChartTools.CountLeIsTotalPreorder | onadata/libs/utils/chart_tools.py:72 | ordering rows by count is a total preorder |
| ChartTools.SortByCount | onadata/libs/utils/chart_tools.py:72 | the rows are sorted by count and are a permutation of the input |
| ChartTools.DropNone | onadata/libs/utils/chart_tools.py:77 | exactly the rows whose value is not None are kept |
| ChartTools.DropNoneKeepsSorted | onadata/libs/utils/chart_tools.py:72-77 | filtering sorted rows keeps them sorted |
| ChartTools.DropNoneKeepsOrder | onadata/libs/utils/chart_tools.py:77 | filtering distributes over concatenation, so order is kept |
| ChartTools.NormalizedRow | onadata/libs/utils/chart_tools.py:79-85 | a row keeps its count after its time value is normalised |
| ChartTools.NormalizeTimes | onadata/libs/utils/chart_tools.py:79-85 | each row of the array is rewritten in place with its normalised time value |
| ChartTools.ShapedRows | onadata/libs/utils/chart_tools.py:71-85 | the chart rows: sorted by count, and for time fields filtered and normalised; ShapedRowsProperties states their order and contents |
| ChartTools.ShapedRowsProperties | onadata/libs/utils/chart_tools.py:72-85 | the chart rows are sorted by count; for time-based fields the rows that occur are exactly the normalised grouped rows that have a value; other rows are a permutation of the grouped rows |
| ChartTools.Describe | onadata/libs/utils/chart_tools.py:52-69 | the label, name and type of a field, fixed for the submission-time field; ChartDescribesField states them for a built chart |
| ChartTools.ChartDataFor | onadata/libs/utils/chart_tools.py:50-95 | building a field's chart fails exactly when the field is a survey element whose label lookup fails |
| ChartTools.BuildChartDataForField | onadata/libs/utils/chart_tools.py:50-95 | the chart data is sorted by count, holds for time fields exactly the normalised grouped rows that have a value (as a set of rows) and for other fields all grouped rows, and carries the field's data type |
| ChartTools.Chartable | onadata/libs/utils/chart_tools.py:102-103 | exactly the fields whose type is in the chart field list are charted |
| ChartTools.ChartableKeepsOrder | onadata/libs/utils/chart_tools.py:102-103 | the chartable fields keep their survey order |
| ChartTools.AsFields | onadata/libs/utils/chart_tools.py:104-106 | one chart field per survey element, in order |
| ChartTools.ChartsFor | onadata/libs/utils/chart_tools.py:104-108 | the list comprehension over the fields, stopping at the first failure; ChartsForElementwise and ChartsForFailsOnPrefix state its results |
| ChartTools.ChartsForElementwise | onadata/libs/utils/chart_tools.py:104-108 | when charting succeeds, chart `k` is the chart data of field `k` |
| ChartTools.ChartDescribesField | onadata/libs/utils/chart_tools.py:87-93 | a chart names its field, its type and its data type |
| ChartTools.ChartsShape | onadata/libs/utils/chart_tools.py:98-108 | the submission-time chart comes first, then one chart per chartable element, each of a chart field type |
| ChartTools.BuildChartData | onadata/libs/utils/chart_tools.py:98-108 | building all charts yields the charts of the chartable fields, in order |
| ChartTools.ChartsForFailsOnPrefix | onadata/libs/utils/chart_tools.py:104-108 | the first field whose label fails aborts the whole build |
| LookupRouter.CloseBrace | onadata/apps/api/urls.py:238-244 | finds the first closing brace at or after a position, or reports that there is none |
| LookupRouter.Format | onadata/apps/api/urls.py:238-244 | a `KeyError` from `str.format` names a field that has no argument |
| LookupRouter.FormatLiteral | onadata/apps/api/urls.py:238-244 | `str.format` copies brace-free text unchanged |
| LookupRouter.FormatField | onadata/apps/api/urls.py:238-244 | `str.format` replaces `{name}` by its argument |
| LookupRouter.NamedGroupIsFormatted | onadata/apps/api/urls.py:73-77 | formatting the lookup template yields the named group `(?P<field>class)` |
| LookupRouter.PiecesShape | onadata/apps/api/urls.py:71-77 | the inner loop makes one piece per field, in field order |
| LookupRouter.LookupRegexes | onadata/apps/api/urls.py:62-79 | `get_lookup_regexes`, whose group count and group contents LookupRegexesShape and OnlyLastPieceExcludesDot state |
| LookupRouter.LookupRegexesShape | onadata/apps/api/urls.py:62-79 | `n` lookup fields give `n-1` groups (none for one field); group `g` holds `g+2` pieces |
| LookupRouter.OnlyLastPieceExcludesDot | onadata/apps/api/urls.py:72-77 | with distinct field names, only the last piece of a group uses the class that excludes `.` |
| LookupRouter.GetLookupRegexes | onadata/apps/api/urls.py:62-79 | the nested loops build exactly the lookup regex groups |
| LookupRouter.LookupList | onadata/apps/api/urls.py:226-231 | one lookup variant per group, or a single empty variant |
| LookupRouter.ExtraPiecesShape | onadata/apps/api/urls.py:49-59 | one named group per extra lookup field, in order |
| LookupRouter.ExtraLookupRegexes | onadata/apps/api/urls.py:49-59 | `get_extra_lookup_regexes`, computed by GetExtraLookupRegexes and described for one field by ExtraLookupRegexesOfOneField |
| LookupRouter.GetExtraLookupRegexes | onadata/apps/api/urls.py:49-59 | the loop joins the extra groups with `/`; the result is empty without extra lookup fields |
| LookupRouter.ExtraLookupRegexesOfOneField | onadata/apps/api/urls.py:49-59 | a single extra field gives exactly its group |
| LookupRouter.FormatFieldThen | onadata/apps/api/urls.py:238-244 | a field followed by text formats to the argument followed by the formatted text |
| LookupRouter.FormatLiteralThen | onadata/apps/api/urls.py:238-244 | brace-free text followed by text formats to itself followed by the formatted text |
| LookupRouter.MakeRoutesUrlTail | onadata/apps/api/urls.py:87 | the tail of a `make_routes` url formats to `/<lookups><trailing slash>$` |
| LookupRouter.MakeRoutes | onadata/apps/api/urls.py:82-90 | the list route `make_routes` builds, whose url and name MakeRoutesUrl and MakeRoutesName state |
| LookupRouter.MakeRoutesUrl | onadata/apps/api/urls.py:82-90 | a `make_routes` url formats to `^<prefix>/<lookups><trailing slash>$` |
| LookupRouter.MakeRoutesName | onadata/apps/api/urls.py:82-90 | a `make_routes` name formats to `<basename>-list` |
| LookupRouter.Decorated | onadata/apps/api/urls.py:141-147 | exactly the methods with a non-empty `bind_to_methods` are collected |
| LookupRouter.LowerAll | onadata/apps/api/urls.py:146 | every HTTP method name is lower-cased |
| LookupRouter.CollectDecorated | onadata/apps/api/urls.py:141-147 | the first loop of `get_lookup_routes` collects exactly the decorated methods |
| LookupRouter.ExpandDynamic | onadata/apps/api/urls.py:152-169 | the inner loop adds each decorated method's routes, method after method |
| LookupRouter.DynamicFor | onadata/apps/api/urls.py:152-169 | a decorated method gets its plain route, preceded by an `-extra` route exactly when its merged initkwargs hold extra lookup fields; all carry those initkwargs and map exactly the method's lower-cased HTTP methods, each to the method's name |
| LookupRouter.WellFormedPrefix | onadata/apps/api/urls.py:149-172 | every prefix of well-formed lookup routes is well formed |
| LookupRouter.ExpandLookupsRoutes | onadata/apps/api/urls.py:149-172 | standard routes are kept as they are, and the dynamic route is expanded per decorated method |
| LookupRouter.DynamicRoutesBlocks | onadata/apps/api/urls.py:152-169 | each decorated method's routes sit together, in method order |
| LookupRouter.InitialLookupsRoutesWellFormed | onadata/apps/api/urls.py:108-133 | only the last of the installed lookup routes is the dynamic one |
| LookupRouter.LookupRoutes | onadata/apps/api/urls.py:135-173 | `get_lookup_routes`: the first default route, then the expanded lookup routes, as StandardLookupRoutes lists them |
| LookupRouter.StandardLookupRoutes | onadata/apps/api/urls.py:135-173 | the lookup routes are the first default route, the detail route, the two list routes, then the decorated methods' routes |
| LookupRouter.DynamicRouteExtraIff | onadata/apps/api/urls.py:153-169 | a decorated method gets an `-extra` route exactly when its kwargs give extra lookup fields |
| LookupRouter.MethodMap | onadata/apps/api/urls.py:234-236 | only the HTTP methods whose action the viewset implements are mapped |
| LookupRouter.ThenAssociates | onadata/apps/api/urls.py:233-247 | appending pattern lists is associative, including when an error occurs |
| LookupRouter.RoutesPatterns | onadata/apps/api/urls.py:233-247 | the patterns of each route in order, or the first error; PatternsOfRoutes computes it |
| LookupRouter.RegistryPatterns | onadata/apps/api/urls.py:225-247 | the patterns of each registration in order, or the first error; RegistryPatternsStep and PatternsOfRegistry relate it to the loop |
| LookupRouter.LookupPatternsCount | onadata/apps/api/urls.py:237-247 | a route with a non-empty method map gives one pattern per lookup variant |
| LookupRouter.ListRoutePattern | onadata/apps/api/urls.py:237-247 | a list route's pattern `k` has the regex `^<prefix>/<lookups k><trailing slash>$` and the name `<basename>-list` |
| LookupRouter.LookupPatternsAllOk | onadata/apps/api/urls.py:237-247 | when every variant formats, so does the whole route |
| LookupRouter.MultiLookupRouter.constructor | onadata/apps/api/urls.py:97-133 | the router starts with the default routes, the four lookup routes and an empty registry |
| LookupRouter.MultiLookupRouter.Register | onadata/apps/api/urls.py:253-285 | a registration is appended and nothing else changes |
| LookupRouter.MultiLookupRouter.GetLookupRoutes | onadata/apps/api/urls.py:135-173 | the lookup routes begin with the first default route and expand the dynamic route |
| LookupRouter.MultiLookupRouter.GetRoutes | onadata/apps/api/urls.py:175-182 | a viewset with lookup fields gets the lookup routes, and any other viewset the default routes |
| LookupRouter.MultiLookupRouter.PatternsOfRegistration | onadata/apps/api/urls.py:225-247 | one registration's patterns are its routes formatted for each lookup variant |
| LookupRouter.MultiLookupRouter.GetUrls | onadata/apps/api/urls.py:215-250 | the patterns are the root view followed by every registration's patterns, in order |
| LookupRouter.RegistryPatternsStep | onadata/apps/api/urls.py:225-247 | one registration further on, its patterns follow those already collected, or its error ends the walk |
| LookupRouter.MultiLookupRouter.PatternsOfRegistry | onadata/apps/api/urls.py:225-247 | the registry loop appends each registration's patterns in order |
| LookupRouter.LookupListOf | onadata/apps/api/urls.py:226-231 | the method computes exactly the lookup variants |
| LookupRouter.ThenEmpty | onadata/apps/api/urls.py:219-247 | appending to an empty list changes nothing |
| LookupRouter.PatternsOfLookups | onadata/apps/api/urls.py:237-247 | the innermost loop emits one pattern per lookup variant |
| LookupRouter.PatternsOfRoutes | onadata/apps/api/urls.py:233-247 | the middle loop skips a route whose method map is empty |
| XFormSerializer.ManifestFilename | onadata/libs/serializers/xform_serializer.py:355-362 | a value with fewer than two spaces is kept; otherwise the name is the third space-separated part plus `.csv` |
| XFormSerializer.ManifestFilenameIsThirdPart | onadata/libs/serializers/xform_serializer.py:355-362 | the name is the third part of the split, which rejoins to the original value |
| XFormSerializer.ManifestFormat | onadata/libs/serializers/xform_serializer.py:340-343 | without a dot the format is `csv`; otherwise it is the dot-free text after the last dot |
| XFormSerializer.ManifestUrl | onadata/libs/serializers/xform_serializer.py:333-349 | the media URL uses the lower-cased format, and carries the group delimiter exactly when one is given and the format is exactly `csv` |
| XFormSerializer.UndottedValueCarriesDelimiter | onadata/libs/serializers/xform_serializer.py:340-349 | a value without a dot gets a csv URL with the delimiter |
| XFormSerializer.UpperCaseCsvDropsDelimiter | onadata/libs/serializers/xform_serializer.py:345-349 | a `.CSV` file gets a csv URL but no delimiter, because the comparison is case-sensitive |
| XFormSerializer.ManifestHash | onadata/libs/serializers/xform_serializer.py:351-353 | the file hash when present, and `md5:` otherwise; never empty |
| XFormSerializer.ListHash | onadata/libs/serializers/xform_serializer.py:310-312 | `md5:` followed by the hash, or by `None` when there is none |
| XFormSerializer.ListVersion | onadata/libs/serializers/xform_serializer.py:307-308 | the version is always null |
| XFormSerializer.FirstValue | onadata/libs/serializers/xform_serializer.py:74-78 | the value of the first row of the type, and None exactly when there is no such row |
| XFormSerializer.MetadataOf | onadata/libs/serializers/xform_serializer.py:74-80 | a given key yields the first matching value; no key yields all rows |
| XFormSerializer.FirstValueOfConcat | onadata/libs/serializers/xform_serializer.py:76-78 | a match in earlier rows wins over later ones |
| XFormSerializer.UsersOf | onadata/libs/serializers/xform_serializer.py:92-115 | one entry per distinct user |
| XFormSerializer.UserIdsMembers | onadata/libs/serializers/xform_serializer.py:93-94 | the grouped users are exactly the users with a permission row |
| XFormSerializer.UserIdsDistinct | onadata/libs/serializers/xform_serializer.py:93-94 | each user is grouped once |
| XFormSerializer.FirstInfoIsFirstRow | onadata/libs/serializers/xform_serializer.py:97-103 | the details kept for a user are those of the first row that names the user |
| XFormSerializer.CodenamesOfAbsentUser | onadata/libs/serializers/xform_serializer.py:104-107 | a user without rows collects no codenames |
| XFormSerializer.CodenamesOfConcat | onadata/libs/serializers/xform_serializer.py:104-107 | codenames are collected in row order |
| XFormSerializer.CodenamesMembers | onadata/libs/serializers/xform_serializer.py:104-107 | a user's codenames are exactly those of their rows |
| XFormSerializer.RoleInputSortedPermutation | onadata/libs/serializers/xform_serializer.py:110-111 | the role is computed from the user's codenames sorted, with none lost or added |
| XFormSerializer.UsersOfOnePerUser | onadata/libs/serializers/xform_serializer.py:92-115 | one entry per distinct user, in order of first appearance; entry `k` carries the organisation flag, metadata, first name, last name and username of that user's first row, and the role of their sorted codenames |
| XFormSerializer.GroupPermissions | onadata/libs/serializers/xform_serializer.py:92-107 | the loop groups the rows per user, with each user's details from their first row and all their codenames |
| XFormSerializer.FinishEntries | onadata/libs/serializers/xform_serializer.py:109-115 | each grouped user becomes, in order, an entry with the role of its sorted codenames, and without the permission list |
| XFormSerializer.UserEntries | onadata/libs/serializers/xform_serializer.py:92-115 | the two loops together give one entry per user holding a permission, in order of first appearance |
| XFormSerializer.Key | onadata/libs/serializers/xform_serializer.py:63 | a cache key starts with the prefix |
| XFormSerializer.KeysDistinct | onadata/libs/serializers/xform_serializer.py:63 | two forms under one prefix never share a cache key |
| XFormSerializer.KeyReadsBack | onadata/libs/serializers/xform_serializer.py:63 | what follows the prefix in a cache key reads back as the form's primary key |
| XFormSerializer.Cache.constructor | onadata/libs/serializers/xform_serializer.py:54-64 | the cache starts empty |
| XFormSerializer.Cache.Get | onadata/libs/serializers/xform_serializer.py:85-86 | a missing key reads as None, and a present key as its value |
| XFormSerializer.Cache.Set | onadata/libs/serializers/xform_serializer.py:54-64 | a write changes exactly that key |
| XFormSerializer.GetUsers | onadata/libs/serializers/xform_serializer.py:82-120 | no form raises; a truthy cached list is returned; otherwise the per-user entries are cached and returned |
| XFormSerializer.EnketoUrlOf | onadata/libs/serializers/xform_serializer.py:128-130 | the URL the form's metadata records first, or the newly created one when no row records one |
| XFormSerializer.GetEnketoUrl | onadata/libs/serializers/xform_serializer.py:122-134 | a truthy cached URL is returned; otherwise the recorded URL, or a newly created one, is cached and returned |
| XFormSerializer.GetEnketoPreviewUrl | onadata/libs/serializers/xform_serializer.py:136-158 | as for the Enketo URL, except that when the preview service fails, None is returned and the cache is left alone |
| XFormSerializer.GetMetadata | onadata/libs/serializers/xform_serializer.py:252-268 | no form gives an empty list; a truthy cached list is returned; otherwise the rows are cached and returned |
| XFormSerializer.GetFormVersions | onadata/libs/serializers/xform_serializer.py:270-287 | no form gives an empty list; a truthy cached list is returned; otherwise the counts are returned, and cached only when non-empty |
| Permissions.RequiredPermissions | onadata/apps/api/permissions.py:19-27 | an unmapped HTTP method is not allowed; a mapped one requires one codename per action in the map, for the model |
| Permissions.RequiredAll | onadata/apps/api/permissions.py:118-121 | the permissions required over all models, in order; RequiredAllFails and RequiredAllMembers state when it fails and what it holds |
| Permissions.ViewPermsMapRequires | onadata/apps/api/permissions.py:19-27 | GET needs view, POST add, PUT/PATCH change and DELETE delete; OPTIONS and HEAD need nothing; other methods are not mapped |
| Permissions.RequiredAllFails | onadata/apps/api/permissions.py:118-121 | collecting over the models fails exactly when there is a model and the method is not mapped |
| Permissions.RequiredAllMembers | onadata/apps/api/permissions.py:118-121 | the required permissions are exactly each model's codename for each mapped action |
| Permissions.CoversStep | onadata/apps/api/permissions.py:118-121 | a permission is required for a list of models exactly when the first model or the rest require it |
| Permissions.ModelPermission | onadata/apps/api/permissions.py:111-130 | with model permissions ignored, the check passes |
| Permissions.ModelPermissionIff | onadata/apps/api/permissions.py:111-130 | otherwise it passes exactly when a user is present (authenticated when required) and holds every required permission; an unmapped method is an error |
| Permissions.CollectRequired | onadata/apps/api/permissions.py:118-121 | the loop computes the required permissions of all models, or the error |
| Permissions.CheckModelPermission | onadata/apps/api/permissions.py:111-130 | the method computes the model-permission check |
| Permissions.ChosenModels | onadata/apps/api/permissions.py:148-157 | a truthy `xform` field selects forms; otherwise a truthy `project` field selects projects; otherwise both |
| Permissions.ChosenModelsAreFormOrProject | onadata/apps/api/permissions.py:148-157 | one or two models are chosen, each a form or a project, with forms chosen unless only `project` is given |
| Permissions.HasObjectPermissionMixin.constructor | onadata/apps/api/permissions.py:145-157 | the mixin starts with its permission map and no model classes |
| Permissions.HasObjectPermissionMixin.HasPermission | onadata/apps/api/permissions.py:148-157 | the mixin records the chosen models and answers the model-permission check for them |
| Permissions.XFormHasPermission | onadata/apps/api/permissions.py:38-52 | an authenticated user may create a form in a named account only with the right to add forms to that profile; otherwise the parent decides |
| Permissions.XFormHasObjectPermission | onadata/apps/api/permissions.py:54-67 | cloning a shared form is allowed; deleting labels needs the change right; destroying needs the delete-submission right; otherwise the parent decides |
| Permissions.UserProfileHasPermission | onadata/apps/api/permissions.py:74-80 | anonymous users may create profiles; otherwise the parent decides |
| Permissions.ProjectHasPermission | onadata/apps/api/permissions.py:87-96 | anonymous users may list and authenticated users may star; otherwise the parent decides |
| Permissions.ProjectHasObjectPermission | onadata/apps/api/permissions.py:98-105 | users may remove themselves from a project's share; otherwise the parent decides |
| Permissions.RulesOnlyWiden | onadata/apps/api/permissions.py:74-105 | these rules never refuse what the parent allows, and a project object refusal is lifted only by self-removal |
| Permissions.ConnectHasPermission | onadata/apps/api/permissions.py:192-197 | the reset action is open; otherwise the parent decides |
| Permissions.UserViewSetHasPermission | onadata/apps/api/permissions.py:202-209 | an anonymous search of the user list is refused as unauthenticated; otherwise the parent decides |
| Permissions.WidgetHasPermission | onadata/apps/api/permissions.py:233-239 | a request with a key, or a list request, is allowed; otherwise the project model-permission check decides |
| Permissions.WidgetReadNeedsProjectView | onadata/apps/api/permissions.py:233-239 | other widget reads by a present user need exactly the project view permission |
| Permissions.View.constructor | onadata/apps/api/permissions.py:241-250 | a view starts without a model |
| Permissions.WidgetHasObjectPermission | onadata/apps/api/permissions.py:241-250 | the view's model becomes Project, and access is granted exactly when the content is an instance of the form or data view class (subclasses included) and the parent allows |
| Permissions.RelatedObjectPermission | onadata/apps/api/permissions.py:163-187 | the view's model becomes the related object's class, and the parent decides |

## Left out

- Aliasing: the JSON metadata, cached lists and request dictionaries are values, so the model does not capture `replace_key_value` changing a nested dictionary in place that other references share.
- JSON decoding (`json.loads` of the request's metadata) is not modelled; the decoded value is an input.
- Password hashing is not modelled; `check_password` compares against the stored password itself.
- Database queries are not modelled; their results are inputs. These are the profile rows, the metadata rows, the permission rows, the instance version counts and the survey elements.
- The Enketo service is not modelled. The created form URL and the preview URL (None when the call raises) are inputs.
- The framework's `reverse` is a function parameter. So are `replace_methodname`, `get_role` and the router's default routes and `get_lookup_regex`.
- `get_method_map` is modelled from the actions the viewset implements; `dir()` order of decorated methods is taken as given.
- Python 2 dictionary iteration order is not modelled. Grouped users are taken in order of first appearance, and `dict.update`/`str.format` arguments as given.
- `format_suffix_patterns` and the API root view's body are not modelled; the root view is a single pattern.
- Unicode and `str.format` format specifications are not modelled; templates use plain `{name}` fields and strings are ASCII.
- The cache key prefixes and the group-delimiter tag live in modules that are not part of this model; they are parameters.
- Cache expiry is not modelled.
- `user_to_username`, `get_data_views`, `is_organization` and `_create_enketo_url` are not modelled; their results are inputs.
- The MetaData writes of the preview URL are not modelled.
- The `check_obj` decorator is not modelled; the getters are modelled for a present object.
- The MetaData serializer's output is modelled as the metadata rows themselves.
- The model's app label for forms and projects is "logger", as an example value; the actual labels come from Django.
- `check_inherit_permission_from_project` and `DataViewViewsetPermissions.has_object_permission` beyond the model choice are not modelled. The parent decision they feed is an input.
- The decisions of the framework parent classes (`DjangoObjectPermissions`, `IsAuthenticated`, `DjangoModelPermissionsOrAnonReadOnly`) are inputs.
- The framework's `partial_update`, used when `overwrite` is not 'false', is not modelled; the model reports that it was delegated.
- Logging is not modelled.
- Text.ParseInt: non-ASCII whitespace and non-ASCII decimal digits, which `int()` also accepts on a unicode argument, are not modelled, in line with the ASCII strings of the model.
- UserProfileViewset.NumeralLookupSelectsByPk: covers lookups made of ASCII whitespace, signs and ASCII digits; a lookup with non-ASCII whitespace or digits that `int()` reads as a number is outside the model.
- UserProfileViewset.NamedLookupSelectsByName: holds for ASCII lookups; a lookup whose only other characters are non-ASCII whitespace or decimal digits would be read as a primary key by `int()`, which the model does not follow.
- ChartTools.SortByCount: stability (rows of equal count keep the order the query returned them in) is not proved; the model proves sortedness and permutation only. Sorting.Sort carries the same gap.
- Request data is modelled as a dictionary from strings to strings, so JSON booleans and numbers in a request body (for example `false` or `0`) are not represented; the truthiness tests on request fields treat only the empty string as false.
- Permissions.XFormHasPermission: a request without a user is not modelled; the source reads the user only after its `request` guard.
