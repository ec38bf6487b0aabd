# Listing and admin-access core of the julin real-estate site, in Dafny

This project models the part of the real-estate web application that decides which property listings exist and who may see or change them, and proves properties of that model. It covers:

- **Listing rules**:
  - the zod schemas for creating and updating a listing;
  - the status state machine (draft, available, reserved, sold);
  - the create, update and soft-delete services;
  - the repository over a table of rows: `ORDER BY created_at DESC`, filters, `LIMIT`, `.single()` and the cursor pagination.
- **Admin access**:
  - the middleware's path-prefix match and its two-gate redirect decision;
  - the next-auth `jwt`, `session` and `signIn` callbacks;
  - `isAdmin`;
  - the `ADMIN_EMAILS` allow-list parser;
  - the role/action permission table.
- **The properties API route**:
  - the GET dispatch order (slug, then admin, then public page);
  - the `limit` clamp and the normalisation of filter parameters;
  - the guard and id checks of POST, PATCH and DELETE.
- **Serialisers and small state machines**:
  - the sitemap XML;
  - the two LLM prompt templates;
  - the chat-session store, a map from session id to session with get-or-create and message append;
  - the carousel's wrap-around image index.

Files and modules:

| file | module | models |
|---|---|---|
| wrappers.dfy | Wrappers | `Option`, `Result`, and JavaScript truthiness of an optional string |
| seqs.dfy | Seqs | `filter` and `map` on arrays, with their algebra |
| text.dfy | Text | `trim`, `split` on one character, `join`, ASCII `toLowerCase`, `startsWith`, decimal digits |
| property_model.dfy | PropertyModel | the `Property` record and its enums |
| property_validation.dfy | PropertyValidation | `propertySchema`, `createPropertySchema`, `updatePropertySchema`, `validateStatusTransition` |
| property_repository.dfy | PropertyRepository | the query semantics and the class `PropertyTable` holding the rows |
| property_service.dfy | PropertyService | the create, update, delete, latest and by-slug services |
| role_guard.dfy | RoleGuard | `isAdmin` |
| permissions.dfy | Permissions | `ROLES` and `canPerform` |
| env_config.dfy | EnvConfig | `env.adminEmails` |
| middleware.dfy | Middleware | `ADMIN_PATH_PREFIXES` and `middleware` |
| auth_callbacks.dfy | AuthCallbacks | the next-auth callbacks, as classes whose fields they assign |
| properties_route.dfy | PropertiesRoute | GET, POST, PATCH and DELETE of `/api/properties` |
| sitemap.dfy | Sitemap | `buildUrl` and the urlset document |
| chat_memory.dfy | ChatMemory | `ChatMessage` and `ChatSession` |
| prompt_builder.dfy | PromptBuilder | `buildPrompt` of the prompt builder |
| chatbot_service.dfy | ChatbotService | the session store, `buildContext`, `buildPrompt` and the two message handlers |
| property_carousel.dfy | PropertyCarousel | the `prev`/`next` updaters and what the carousel shows |

Modelling choices:

- **Injected inputs.** The database, MongoDB, the image upload, the LLM, the clock (`new Date()`) and `crypto.randomUUID()` are not modelled as services. They appear as explicit inputs: the row table, the session map, an `upload` function, an `llm` function, a `now` timestamp and a fresh id. The admin allow-list is a parameter too. The middleware and the auth configuration read it from a `serverEnv` that `config/env.ts` does not export.
- **Integer values.** Prices and timestamps are integers. The cursor is the decimal text of a timestamp.
- **Opaque URL check.** The zod `.url()` check is a predicate parameter `isUrl`.
- **Field names.** The database's snake_case columns (`created_at`, `property_type`, `is_featured`) are identified with the model's fields.
- **Row order among ties.** Rows come back in insertion-sorted order when they share a `created_at`.
- **Statements about pagination.** The pagination properties are proved for tables in which no two rows share a `created_at` (`DistinctTimestamps`).

## Model

| member | source | states |
|---|---|---|
| PropertyModel.ParseType | domains/property/property.validation.ts:7-14 | exactly the six spellings "land" … "other" parse, each to its own type |
| PropertyModel.ParseStatus | domains/property/property.validation.ts:16-21 | exactly the four spellings "available", "sold", "reserved", "draft" parse, each to its own status |
| PropertyValidation.Issues | domains/property/property.validation.ts:26-55 | the reported fields are exactly those whose rule fails |
| PropertyValidation.NoIssuesIsCreateRules | domains/property/property.validation.ts:26-55 | no failing field is the same as meeting every create rule, both directions |
| PropertyValidation.NoIssuesIsUpdateRules | domains/property/property.validation.ts:61 | no failing field is the same as every present field meeting its rule, both directions |
| PropertyValidation.ValidateCreate | domains/property/property.validation.ts:26-60 | accepts exactly the bodies meeting every rule. A rejection names every failing field. An accepted payload copies each field, with status defaulting to available and `is_featured` to false |
| PropertyValidation.ValidateUpdate | domains/property/property.validation.ts:61 | accepts exactly the bodies whose present fields meet their rules. No defaults are applied: absent fields stay absent |
| PropertyValidation.CreateRejectsNonPositivePrice | domains/property/property.validation.ts:38 | a price ≤ 0 is rejected, naming the price field |
| PropertyValidation.CreateRejectsNoImages | domains/property/property.validation.ts:52 | a missing or empty image list is rejected, naming the images field |
| PropertyValidation.CreateRejectsOtherCurrency | domains/property/property.validation.ts:39 | any currency other than "KES" is rejected |
| PropertyValidation.SlugRule | domains/property/property.validation.ts:30-33 | a slug passes exactly when it has at least 5 characters, all in a–z, 0–9 or '-' |
| PropertyValidation.CreateRequiresMinimumLengths | domains/property/property.validation.ts:27-41 | an accepted body has title ≥ 5, description ≥ 20 and county ≥ 3 characters |
| PropertyValidation.CreateDefaults | domains/property/property.validation.ts:36-54 | a missing status becomes available and a missing featured flag becomes false |
| PropertyValidation.UpdateAcceptsEmptyBody | domains/property/property.validation.ts:61 | the empty body passes the update schema unchanged |
| PropertyValidation.UpdateAcceptsAnySubsetOfValid | domains/property/property.validation.ts:60-61 | any subset of the fields of a valid create body passes the update schema |
| PropertyValidation.UpdateChecksPresentFields | domains/property/property.validation.ts:61 | a present field that breaks its rule is rejected by the update schema, and it would also fail on create |
| PropertyValidation.ValidateStatusTransition | domains/property/property.validation.ts:66-79 | passes exactly for the six listed pairs. Every other pair fails with the "Invalid status transition" message |
| PropertyValidation.SoldIsTerminal | domains/property/property.validation.ts:74 | no move out of sold is allowed |
| PropertyValidation.NoTransitionToDraft | domains/property/property.validation.ts:70-75 | no move into draft is allowed |
| PropertyValidation.NoSelfTransition | domains/property/property.validation.ts:70-75 | no status may move to itself |
| PropertyValidation.TwoSuccessorsUnlessSold | domains/property/property.validation.ts:71-73 | every status but sold has exactly two successors |
| PropertyRepository.ConsNewestFirst | domains/property/property.repository.ts:170 | a row no older than the head keeps a newest-first sequence ordered |
| PropertyRepository.Insert | domains/property/property.repository.ts:170 | inserting into an ordered sequence keeps it newest first and adds exactly that row |
| PropertyRepository.SortNewestFirst | domains/property/property.repository.ts:170 | the result is newest first and a permutation of the input |
| PropertyRepository.Take | domains/property/property.repository.ts:171 | `LIMIT n` returns the first `n` rows, or every row when there are fewer or no limit is given |
| PropertyRepository.Matching | domains/property/property.repository.ts:166-177 | a row is kept exactly when it is in the table and matches every constraint |
| PropertyRepository.Selected | domains/property/property.repository.ts:166-177 | the matching rows, newest first, as a permutation of the matches |
| PropertyRepository.Execute | domains/property/property.repository.ts:166-177 | the result is the first `limit` rows of the matching rows newest first (all of them when there are fewer or no limit); every returned row is in the table and matches |
| PropertyRepository.SingleRow | domains/property/property.repository.ts:95-97 | `.single()` succeeds exactly for one row and fails with a not-single error otherwise |
| PropertyRepository.MatchingAll | domains/property/property.repository.ts:115 | the query without constraints keeps every row, in order |
| PropertyRepository.ListingQueryMeansListed | domains/property/property.repository.ts:169-177 | a row matches the listing query exactly when it is available, older than a given cursor, and passes each truthy filter (county and type equal, price ≥ minPrice, price ≤ maxPrice) |
| PropertyRepository.Listing | domains/property/property.repository.ts:166-177 | the listing is newest first and holds exactly the table rows meeting all of those constraints |
| PropertyRepository.AsWrittenPage | domains/property/property.repository.ts:186-193 | as written: when more than `limit` rows came back, the page is the first `limit` of them and the cursor is the timestamp of the row at index `limit`; otherwise the page is everything fetched and there is no cursor |
| PropertyRepository.CorrectedPage | domains/property/property.repository.ts:186-193 | corrected: the same page as `AsWrittenPage` (the first `limit` rows when more came back, otherwise everything fetched, with a cursor exactly in the first case), but the cursor is the timestamp of the last row on the page |
| PropertyRepository.DistinctCons | domains/property/property.repository.ts:170 | a row with a new timestamp keeps timestamps distinct |
| PropertyRepository.MatchingDistinct | domains/property/property.repository.ts:166-177 | filtering keeps timestamps distinct |
| PropertyRepository.InsertDistinct | domains/property/property.repository.ts:170 | inserting a row with a new timestamp keeps timestamps distinct |
| PropertyRepository.SortDistinct | domains/property/property.repository.ts:170 | sorting keeps timestamps distinct |
| PropertyRepository.ListingStrictlyOrdered | domains/property/property.repository.ts:170 | with distinct timestamps the listing is strictly newest first |
| PropertyRepository.StrictlyOrderedUnique | domains/property/property.repository.ts:170 | two strictly ordered sequences with the same rows are equal |
| PropertyRepository.AsWrittenSkipsBoundaryRow | domains/property/property.repository.ts:173-191 | as written, the row at index `limit` is listed and becomes the cursor, but it is neither on this page nor on the next page |
| PropertyRepository.OlderIsAfter | domains/property/property.repository.ts:173 | in a strictly ordered listing, the rows after position `limit - 1` are exactly the rows older than that row |
| PropertyRepository.OlderThanPageIsTail | domains/property/property.repository.ts:173 | the listing below the last row of a page is the rest of the listing |
| PropertyRepository.CorrectedPagesCoverListing | domains/property/property.repository.ts:173-191 | with the corrected cursor, this page followed by the next page's listing is the whole listing, and no row repeats |
| PropertyRepository.PageThenRest | domains/property/property.repository.ts:186-193 | a corrected page followed by the rows after it gives back the whole strictly ordered sequence, and no row is in both |
| PropertyRepository.PrefixDisjointFromTail | domains/property/property.repository.ts:170 | in a strictly ordered sequence no row of a prefix reappears after it |
| PropertyRepository.BuildListingQuery | domains/property/property.repository.ts:166-177 | building the query clause by clause gives the listing query; a row matches it exactly when it is listed |
| PropertyRepository.FetchedOneMore | domains/property/property.repository.ts:171-191 | fetching `limit + 1` rows shows whether more than `limit` exist. Dropping the last fetched row leaves the first `limit` rows of the listing |
| PropertyRepository.SoftDeleted | domains/property/property.repository.ts:144-148 | rows with the id turn draft and nothing else changes in them; other rows are untouched; the row count is kept |
| PropertyRepository.Replaced | domains/property/property.repository.ts:134-139 | rows with the id become the payload; the other rows stay |
| PropertyRepository.WithoutId | domains/property/property.repository.ts:150-154 | exactly the rows with that id are removed, and every other row keeps its number of occurrences |
| PropertyRepository.WithoutIdKeepsOrder | domains/property/property.repository.ts:150-154 | the removal works row by row and distributes over concatenation, so the remaining rows keep their order |
| PropertyRepository.SoftDeleteHidesButKeeps | domains/property/property.repository.ts:144-148 | a soft-deleted row leaves every public listing but stays in the admin list, as a draft |
| PropertyRepository.MatchingUniqueId | domains/property/property.repository.ts:120-125 | with unique ids, the lookup by id finds one row when the id is present and none otherwise |
| PropertyRepository.LookupByUniqueId | domains/property/property.repository.ts:120-125 | with unique ids, `getPropertyById` succeeds exactly when the id is present |
| PropertyRepository.WritesKeepIdsUnique | domains/property/property.repository.ts:127-154 | inserting a fresh id, replacing a row under its own id and soft-deleting keep ids unique |
| PropertyRepository.PropertyTable.GetPropertyBySlug | domains/property/property.repository.ts:89-98 | returns the single available row with the slug; none or several is an error |
| PropertyRepository.PropertyTable.GetPropertyById | domains/property/property.repository.ts:120-125 | returns the single row with the id, whatever its status; none or several is an error |
| PropertyRepository.PropertyTable.GetAllPropertiesAdmin | domains/property/property.repository.ts:113-118 | every row, whatever its status, newest first, as a permutation of the table |
| PropertyRepository.PropertyTable.GetPublicProperties | domains/property/property.repository.ts:76-86 | the intended filter semantics: the available rows that pass the filters, newest first |
| PropertyRepository.PropertyTable.CreateProperty | domains/property/property.repository.ts:127-132 | appends the row and returns it; an id already present is refused and the table stays as it was |
| PropertyRepository.PropertyTable.UpdateProperty | domains/property/property.repository.ts:134-139 | the rows with the id become the payload; it succeeds exactly when one row had the id |
| PropertyRepository.PropertyTable.DeleteProperty | domains/property/property.repository.ts:144-148 | the table becomes the soft-deleted table |
| PropertyRepository.PropertyTable.HardDeleteProperty | domains/property/property.repository.ts:150-154 | the table loses exactly the rows with the id |
| PropertyRepository.PropertyTable.GetPropertiesPaginated | domains/property/property.repository.ts:159-194 | as written: fails exactly for a negative limit, otherwise returns the as-written page of the listing |
| PropertyRepository.PropertyTable.GetPropertiesPaginatedCorrected | domains/property/property.repository.ts:159-194 | corrected: fails with a query error exactly for a limit below 1, otherwise returns the corrected page of the listing |
| PropertyService.GetLatestProperties | domains/property/property.service.ts:28-31 | default limit 6, through the paginator as written: it succeeds exactly for a limit ≥ 0, and the rows are the first `limit` of the unfiltered public listing (all of it when shorter), so a zero limit gives no rows |
| PropertyService.GetPublicPropertyBySlug | domains/property/property.service.ts:36-42 | a lookup failure becomes null; a hit is the available row with that slug |
| PropertyService.SlugCheckAsWrittenNeverRejects | domains/property/property.service.ts:55-61 | as written, the slug check passes whatever the lookup returns, even when a listing with that slug exists |
| PropertyService.SlugCheck | domains/property/property.service.ts:55-61 | corrected: rejects with "Property slug already exists" exactly when the lookup found a listing |
| PropertyService.PrepareCreate | domains/property/property.service.ts:63-75 | as written: fails with the land message exactly for land without a truthy area. Otherwise the record is the payload's fields with the fresh id, both timestamps set to now, no meta fields, and `isFeatured` false whatever the body asked |
| PropertyService.CreateNeverFeatured | domains/property/property.service.ts:69-75 | a body with `is_featured: true` that passes the schema still gives a record that is not featured |
| PropertyService.PrepareCreateCorrected | domains/property/property.service.ts:63-75 | corrected: the same outcome and the same record as `PrepareCreate`, except that `isFeatured` is the parsed flag |
| PropertyService.CreatedRecordMeetsSchema | domains/property/property.service.ts:51-75 | a created record meets every field rule and the status default; land always has an area |
| PropertyService.CorrectedCreateKeepsFeatured | domains/property/property.service.ts:69-75 | with the corrected record, the listing meets the schema and is featured exactly when the body asked for it |
| PropertyService.CreatePropertyService | domains/property/property.service.ts:51-79 | as written: a schema error is returned as is, then the land error, and an id already in the table is refused. It succeeds exactly when the body parses, land has an area and the id is new, whether or not the slug is already listed. A success appends exactly the `PrepareCreate` record; any failure leaves the table unchanged |
| PropertyService.DuplicateSlugIsStored | domains/property/property.service.ts:55-61 | when the slug is already listed, the as-written check lets the create through, while the corrected check refuses it |
| PropertyService.CreatePropertyServiceCorrected | domains/property/property.service.ts:51-79 | corrected: like `CreatePropertyService`, but a listed slug is refused with "Property slug already exists", and the stored record carries the parsed featured flag |
| PropertyService.Merge | domains/property/property.service.ts:105-109 | the merge keeps id, createdAt and the meta fields and sets updatedAt to now |
| PropertyService.MergeEmptyPayload | domains/property/property.service.ts:105-109 | an empty payload changes only updatedAt |
| PropertyService.MergeIdempotent | domains/property/property.service.ts:105-109 | merging the same payload twice is merging it once |
| PropertyService.MergeFieldwise | domains/property/property.service.ts:105-109 | for each of the thirteen payload fields, a supplied value overwrites and an absent one keeps the stored value |
| PropertyService.PrepareUpdate | domains/property/property.service.ts:95-109 | a price ≤ 0 fails with "Invalid price". Otherwise the update succeeds exactly when the status is absent, unchanged or an allowed move, and the result is the merge |
| PropertyService.SameStatusSkipsTransitions | domains/property/property.service.ts:100-102 | an unchanged status skips the transition table, even for sold |
| PropertyService.SoldStaysSold | domains/property/property.service.ts:100-102 | a sold listing cannot be moved to another status by an update |
| PropertyService.UpdateKeepsSchema | domains/property/property.service.ts:84-109 | updating a record that meets the field rules gives a record that still meets them |
| PropertyService.UpdatePropertyService | domains/property/property.service.ts:84-112 | a schema error is returned as is; a missing or duplicated id gives not-single. Otherwise the result is exactly `PrepareUpdate` of the stored row: the price error, the transition error, or the merge. It succeeds exactly when the schema, the id and the rules all pass. A failure writes nothing; a success replaces the row with the merge under the same id |
| PropertyService.DeletePropertyService | domains/property/property.service.ts:117-123 | succeeds exactly when one row has the id, and then soft-deletes; otherwise nothing changes |
| PropertyService.DeleteBypassesTransitions | domains/property/property.service.ts:117-123 | delete turns even a sold listing into a draft, a move the transition table forbids |
| RoleGuard.IsAdmin | domains/auth/role.guard.ts:3-6 | false for a missing or empty email; otherwise true exactly when that exact string is listed |
| RoleGuard.CaseSensitive | domains/auth/role.guard.ts:5 | for any allow-list: a listed non-empty address is admitted, and an unlisted spelling is refused even when it lower-cases to the listed one |
| RoleGuard.EmptyListRefusesAll | domains/auth/role.guard.ts:5 | with an empty allow-list every email is refused |
| Permissions.CanPerform | config/permissions.ts:33-36 | an action is allowed exactly when it is in the role's list |
| Permissions.RolesDisjoint | config/permissions.ts:5-25 | no action is allowed to both roles |
| Permissions.AdminCannotViewProperty | config/permissions.ts:6-36 | no inheritance: the public role may view a property, the admin role may not |
| Permissions.UnknownActionRefused | config/permissions.ts:33-36 | an action in neither list is refused for every role |
| EnvConfig.ParseAdminEmails | config/env.ts:2-5 | every entry is non-empty, and there are at most (number of commas + 1) entries |
| EnvConfig.EntriesAreTrimmed | config/env.ts:4 | every entry is its own trim: no leading or trailing whitespace |
| EnvConfig.ListedIffSomeSegment | config/env.ts:3-5 | an address is listed exactly when it is non-empty and some comma segment trims to it |
| EnvConfig.KeptIffSomeSegment | config/env.ts:4-5 | the trim-then-filter step keeps a string exactly when it is non-empty and some segment trims to it |
| EnvConfig.UnsetOrEmptyIsEmpty | config/env.ts:2-5 | an unset or empty variable gives the empty list |
| EnvConfig.BlanksAndCommasGiveNothing | config/env.ts:3-5 | blank segments are dropped: " , " gives the empty list |
| EnvConfig.BlankSegmentsGiveNothing | config/env.ts:4-5 | when every segment is blank the list is empty |
| EnvConfig.OrderPreserved | config/env.ts:3-5 | the list for "a,b" is the list for a followed by the list for b |
| Text.TrimEmptyIffBlank | config/env.ts:4-5 | trimming leaves nothing exactly when every character is whitespace |
| Text.TrimStripsEnds | config/env.ts:4 | `trim` keeps an infix of the input with nothing but whitespace before and after it; with its own contract (the result neither starts nor ends with whitespace) it removes exactly the whitespace at both ends |
| Text.TrimIdempotent | config/env.ts:4 | trimming twice is trimming once |
| Text.Split | config/env.ts:3 | one segment more than there are separators, none containing the separator |
| Text.SplitJoin | config/env.ts:3 | joining the segments with the separator gives back the input |
| Text.ToLowerIdempotent | middleware.ts:53 | lower-casing twice is lower-casing once |
| Middleware.AnyPrefix | middleware.ts:32-34 | true exactly when some prefix starts the path |
| Middleware.Decide | middleware.ts:29-65 | a non-admin path passes. An admin path with no token or no email goes to /login with reason auth_required. Otherwise it passes when the lower-cased email is listed, and goes to /error with reason unauthorized when it is not |
| Middleware.AuthenticationBeforeAuthorisation | middleware.ts:46-61 | without a token or email the answer is never "unauthorized", and it redirects exactly on admin paths |
| Middleware.CaseInsensitiveDecision | middleware.ts:53-54 | emails equal after lower-casing get the same decision |
| Middleware.PrefixMatchIsPlainStartsWith | middleware.ts:21-34 | "/administrator" and "/api/properties" are admin paths; "/properties/house-1" and "/" are not |
| AuthCallbacks.Jwt | infrastructure/auth/nextauth.config.ts:34-41 | with an email, the token gets it lower-cased and `isAdmin` set to whether the lower-cased email is listed. Without one, the token is returned unchanged |
| AuthCallbacks.SessionCallback | infrastructure/auth/nextauth.config.ts:46-52 | when the session has a user, its email and flag become the token's; otherwise nothing changes |
| AuthCallbacks.SignIn | infrastructure/auth/nextauth.config.ts:58-60 | sign-in is allowed exactly when the user has a non-empty email |
| AuthCallbacks.JwtEmailIsLowerCase | infrastructure/auth/nextauth.config.ts:36-37 | the stored email has no upper-case letter and is its own lower-case form |
| PropertiesRoute.NumberText | app/api/properties/route.ts:45-54 | `Number` of trimmed text: "" is 0, digits are their value, a leading '-' negates and a leading '+' is dropped; the result is NaN exactly when the text is none of these |
| PropertiesRoute.NumberParam | app/api/properties/route.ts:45-54 | `Number` of a query value: surrounding whitespace is ignored and the rest is read as `NumberText` reads it, so blank text is 0 and decimal digits give their value |
| PropertiesRoute.EffectiveLimit | app/api/properties/route.ts:53-55 | an absent or empty limit is 10. A present one is min(value, 50), with no lower bound, and text that is not a number gives no limit. The limit is never above 50 |
| PropertiesRoute.NumberParamOfDigits | app/api/properties/route.ts:54 | a digit string reads as its decimal value |
| PropertiesRoute.EffectiveLimitOfDigits | app/api/properties/route.ts:53-55 | a digit string gives min(value, 50) |
| PropertiesRoute.ZeroLimitPassesThrough | app/api/properties/route.ts:53-55 | "0" is not raised to a minimum: the limit is 0 |
| PropertiesRoute.LargeLimitCapped | app/api/properties/route.ts:53-55 | "99" is capped at 50 |
| PropertiesRoute.ListingFilters | app/api/properties/route.ts:42-51 | empty or absent county and type are absent, present ones are copied; an empty or absent price imposes nothing, and a non-empty one is `Number` of its text |
| PropertiesRoute.ParseCursor | app/api/properties/route.ts:56 | an empty or absent cursor is no cursor. Otherwise the cursor is valid exactly when it is a decimal timestamp |
| PropertiesRoute.PublicPageRows | app/api/properties/route.ts:53-60 | a public page has at most `min(limit, 50)` rows, newest first, each a row of the table that is available and passes the filters and the cursor |
| PropertiesRoute.Get | app/api/properties/route.ts:23-65 | a present slug is looked up first (a miss is 500). Otherwise an admin gets every row. Otherwise the public page with the clamped limit and cursor |
| PropertiesRoute.UploadAll | app/api/properties/route.ts:78-80 | succeeds exactly when every upload does, giving the uploaded URLs in order |
| PropertiesRoute.PostPayload | app/api/properties/route.ts:78-80 | a non-empty image list is replaced by its uploads, in order, and fails exactly when an upload fails; any other body passes unchanged |
| PropertiesRoute.Post | app/api/properties/route.ts:70-88 | a non-admin gets 403 before the body is read. For an admin, failed uploads give 400 with that failure; otherwise the answer is 201 exactly when `createPropertyService` as written succeeds on the uploaded body. Only 201, 400 and 403 occur; anything but 201 writes nothing; a 201 appended exactly the returned record, under the fresh id |
| PropertiesRoute.PatchPayload | app/api/properties/route.ts:99-106 | `id` and `images` are taken out. The images come back only as the upload of a non-empty list. All other fields pass unchanged |
| PropertiesRoute.PatchIgnoresEmptyImages | app/api/properties/route.ts:104-106 | an empty image list is dropped, not uploaded |
| PropertiesRoute.Patch | app/api/properties/route.ts:93-114 | a non-admin gets 403; a missing id gives 400 "Property ID required"; failed uploads give 400 with that failure. With an id and the uploads done, the answer is 200 exactly when the update service succeeds. Anything but 200 writes nothing; a 200 replaced the row with that id by the returned record |
| PropertiesRoute.Delete | app/api/properties/route.ts:119-134 | a non-admin gets 403 and a missing id gives 400, both writing nothing. Otherwise the row is soft-deleted and the answer is success |
| Sitemap.SiteUrl | app/sitemap.xml/route.ts:6 | the configured site URL when set and non-empty, otherwise http://localhost:3000 |
| Sitemap.UrlLinesJoin | app/sitemap.xml/route.ts:8-10 | an entry is its lines joined by newlines: `<url>`, `<loc>` of site plus path, an optional `<lastmod>`, `</url>` |
| Sitemap.BuildUrlLines | app/sitemap.xml/route.ts:8-10 | split at newlines an entry gives back those lines: four with a truthy lastmod, three without |
| Sitemap.Lastmod | app/sitemap.xml/route.ts:22 | `updated_at` when truthy, else `created_at`; absent exactly when both are falsy |
| Sitemap.EntriesFollowSluggedRows | app/sitemap.xml/route.ts:20-22 | one entry per row with a truthy slug, in input order, each for "/properties/<slug>" |
| Sitemap.Urls | app/sitemap.xml/route.ts:16-23 | the list starts with "/" and "/properties", then the property entries |
| Sitemap.DocumentLayout | app/sitemap.xml/route.ts:25 | the document is the declaration, the urlset tag, the entries and the closing tag joined by newlines, with 2 + (rows with a slug) entries |
| Sitemap.Get | app/sitemap.xml/route.ts:12-37 | a failed fetch gives 500 with an empty body, otherwise 200 with the document |
| ChatMemory.UserTypeName | domains/chatbot/chatbot.memory.ts:17 | the user type is spelled "PUBLIC" or "ADMIN", "ADMIN" exactly for admins |
| PromptBuilder.ContextLayout | domains/chatbot/prompt.builder.ts:17-28 | Session ID and User Type lines always come first. Identity, Last Intent and Journey Stage follow, each only when set. Viewed Properties comes last, only for a non-empty list, with ids joined by ", " |
| PromptBuilder.ContextNotEmpty | domains/chatbot/prompt.builder.ts:17-28 | the context is never empty |
| PromptBuilder.PromptLayout | domains/chatbot/prompt.builder.ts:12-40 | the prompt is, line by line: an empty line, the instructions (the admin ones exactly when `isAdmin`), an empty line, "Context:", the context lines, an empty line, "User Message:", the message, an empty line, "Answer:" |
| ChatbotService.NewSession | domains/chatbot/chatbot.service.ts:68-78 | a new session has no messages and no viewed properties. Last intent and journey stage are null. The identity is kept only when truthy |
| ChatbotService.Opened | domains/chatbot/chatbot.service.ts:63-82 | get-or-create keeps every stored session and adds a new one only for an unknown id |
| ChatbotService.OpenTwiceInsertsOnce | domains/chatbot/chatbot.service.ts:67-80 | a second get-or-create with the same id inserts nothing |
| ChatbotService.OpenedKeepsKeying | domains/chatbot/chatbot.service.ts:63-82 | every session stays stored under its own id |
| ChatbotService.Exchange | domains/chatbot/chatbot.service.ts:94-103 | the user's message, then the assistant's reply |
| ChatbotService.Saved | domains/chatbot/chatbot.service.ts:84-112 | the session gets the exchange at the end of its messages and its identity and user type set; nothing else in it changes; other sessions are untouched |
| ChatbotService.SavedKeepsKeying | domains/chatbot/chatbot.service.ts:105-111 | saving keeps every session under its own id |
| ChatbotService.SavedAppendsExchange | domains/chatbot/chatbot.service.ts:105-110 | earlier messages stay in place and exactly two new ones follow, the user's then the assistant's |
| ChatbotService.ContextLines | domains/chatbot/chatbot.service.ts:117-125 | one line per viewed id, in order: "title - county", or "" when not found |
| ChatbotService.ContextLayout | domains/chatbot/chatbot.service.ts:117-127 | split at newlines the context gives back those lines |
| ChatbotService.PromptLayout | domains/chatbot/chatbot.service.ts:129-134 | the prompt is, line by line: the instructions (the admin ones exactly when `isAdmin`), "Context:", the context lines, "User: " with the message, "Answer:" |
| ChatbotService.ChatbotService.constructor | domains/chatbot/chatbot.service.ts:14-16 | the store starts empty |
| ChatbotService.ChatbotService.GetOrCreateSession | domains/chatbot/chatbot.service.ts:63-82 | the store becomes the get-or-create store; the returned session is the stored one, and unchanged when it existed |
| ChatbotService.ChatbotService.SaveMessage | domains/chatbot/chatbot.service.ts:84-112 | the store becomes the saved store |
| ChatbotService.ChatbotService.HandlePublicMessage | domains/chatbot/chatbot.service.ts:21-37 | the reply is the LLM's answer to the public prompt with at most 500 tokens. The exchange is saved as a public one |
| ChatbotService.ChatbotService.HandleAdminMessage | domains/chatbot/chatbot.service.ts:42-58 | the reply is the LLM's answer to the admin prompt with at most 700 tokens. The session carries the admin's email |
| PropertyCarousel.PrevIndex | ui/widgets/property-carousel.tsx:16 | from 0 it wraps to the last index, otherwise it steps back by one, staying in range |
| PropertyCarousel.NextIndex | ui/widgets/property-carousel.tsx:17 | from the last index it wraps to 0, otherwise it steps forward by one, staying in range |
| PropertyCarousel.PrevNextInverse | ui/widgets/property-carousel.tsx:16-17 | prev after next and next after prev return to the starting index |
| PropertyCarousel.StepsAreModular | ui/widgets/property-carousel.tsx:16-17 | next is +1 and prev is −1, both modulo the number of images |
| PropertyCarousel.Step | ui/widgets/property-carousel.tsx:16-17 | one button press stays in range |
| PropertyCarousel.RunStaysInRange | ui/widgets/property-carousel.tsx:12-17 | starting in range, any sequence of presses stays in [0, length) |
| PropertyCarousel.Dots | ui/widgets/property-carousel.tsx:46-57 | one dot per image, lit exactly at the current index |
| PropertyCarousel.Render | ui/widgets/property-carousel.tsx:14-46 | nothing is shown exactly when there are no images. Otherwise the current image is shown. Arrows appear exactly when there is more than one image, and dots only then |
| PropertyCarousel.AltTextNamesPosition | ui/widgets/property-carousel.tsx:23 | without an alt text, the text is "Property image " and the 1-based position, which reads back as that number |
| PropertyCarousel.Carousel.constructor | ui/widgets/property-carousel.tsx:12 | the carousel starts at image 0 |
| PropertyCarousel.Carousel.Prev | ui/widgets/property-carousel.tsx:16 | the index becomes the previous index and stays in range |
| PropertyCarousel.Carousel.Next | ui/widgets/property-carousel.tsx:17 | the index becomes the next index and stays in range |

## Left out

- **Request parsing.** A request body whose fields have the wrong JSON type is not modelled. Bodies are records of optional, well-typed fields, and an unreadable body is `None`.
- **Unicode text.**
  - `toLowerCase` changes only the ASCII letters.
  - String lengths count characters, not UTF-16 code units.
- PropertiesRoute.NumberParam: reads only optionally signed decimal integers. Decimals, exponents, hex and `Infinity` read as not-a-number; floating-point prices are not modelled.
- PropertyRepository.SortNewestFirst: the database's order among rows with the same `created_at` is unspecified. The model fixes one order, and the pagination lemmas require distinct timestamps.
- PropertyRepository.PropertyTable.GetPublicProperties: the source function does not run. It refers to undefined `limit` and `client` and redeclares `data` and `error`. The model gives its intended filter semantics. Its admin-to-public client fallback is network retry logic and is left out. The sitemap takes the fetched rows as an input.
- PropertyRepository.PropertyTable.GetPropertiesPaginated: the source never executes its query (`data` and `error` are never assigned). The model reads `data` as the result of the built query.
- **Slug uniqueness.** The database does not enforce unique slugs, and `createPropertyService` as written, which POST calls, stores a listing whose slug is already listed. `PropertyService.CreatePropertyServiceCorrected` rejects a slug that `getPropertyBySlug` finds (exactly one available row with that slug); no route calls it.
- **Middleware `config.matcher`.** This is framework routing. `Middleware.Decide` checks the prefixes itself.
- **Foreign calls.** Uploads, the LLM, the clock, UUIDs, the token lookup and database errors are inputs or the error value `QueryFailed`. No failure of the database or of MongoDB is modelled beyond that.
- **Concurrency.** Writes interleaved between page fetches and concurrent chat requests are not modelled.
- **The featured flag.** The schema's `is_featured` and the record's `isFeatured` are treated as the same field. Under that reading the create's later `isFeatured` key wins, so a created listing is never featured (see Findings); an update's `is_featured` does overwrite the flag.
- **Carousel props.** When the `images` prop changes while the index is past the new end, the model does not follow it. The class keeps its images fixed.
- PropertiesRoute.Get: uses the corrected paginator, which refuses a limit below 1 and takes the last row on the page as the next cursor. So `?limit=0` answers 500, where the code as written answers an empty page with a cursor. A negative limit answers 500 in both, because `results[limit]` is undefined.
- PropertyValidation.ValidateUpdate: follows zod 3, where `.partial()` applies no defaults. Under zod 4, defaults apply inside optional fields: an update without `status` would ask for a move to available, and one without `is_featured` would reset the flag. The zod version is not part of this model.
- Sitemap.Get: the `Content-Type: application/xml` and `Cache-Control` response headers are not modelled; only the status and the body are.
- PropertiesRoute.UploadAll: when several uploads fail, `Promise.all` reports the first to fail in time. The model reports the first in list order.
- ChatbotService.Saved: MongoDB stores an undefined `identity` as null. The model stores `None` for both.
- ChatbotService.ContextLines: gives the intended behaviour. As written, `buildContext` throws whenever `viewedProperties` is non-empty: the property service exports no `PropertyService`, so `PropertyService.getById` is a TypeError, and `property.location.county` reads a field that `Property` does not have. The message handler then rejects and the chatbot route answers 500, where the model returns a reply. The lookup is a function parameter returning a title and a county.
- PropertyCarousel.Run: a run of presses is proved to stay in range. Its closed form (the start plus the net number of steps, modulo the length) is not proved.
- PromptBuilder.PromptLayout: states the prompt as a join of its lines. It does not state it as a split, because the fixed instruction texts are long literals.
- **Not in the core.** Blog, leads, upload, admin and debug routes, the React UI and hooks, and the database and client setup are not part of this model.

## Findings

| source | as written | input that shows it | evidently intended | confidence | as-written member | corrected member |
|---|---|---|---|---|---|---|
| domains/property/property.repository.ts:186-193 | `nextCursor` is `created_at` of the extra row at index `limit`. That row is popped, and the next page asks for rows with `created_at < nextCursor` | three available rows at times 3, 2, 1 with limit 1: page one is [3] with cursor 2; page two asks for times < 2 and returns [1]; the row at time 2 is never listed | the cursor is the `created_at` of the last row on the page, so that the next page starts right after it | not executed | PropertyRepository.AsWrittenSkipsBoundaryRow | PropertyRepository.CorrectedPagesCoverListing |
| domains/property/property.service.ts:55-61 | `throw new Error("Property slug already exists")` is inside the `try` whose bare `catch` also handles "not found", so the error is swallowed | `getPropertyBySlug` finds a listing with the requested slug: creation carries on and inserts a second listing with the same slug | a found slug rejects the creation with "Property slug already exists" | not executed | PropertyService.SlugCheckAsWrittenNeverRejects | PropertyService.SlugCheck |
| domains/property/property.service.ts:74 | `isFeatured: payload.isFeatured ?? false` reads `isFeatured`, but the parsed payload's key is `is_featured` (zod drops unknown keys), so after the spread the record's flag is always false | a valid body with `is_featured: true`: the created listing is not featured | the record carries the parsed flag | not executed | PropertyService.CreateNeverFeatured | PropertyService.CorrectedCreateKeepsFeatured |
