# Verified model of the Sources API core

The Sources API keeps sources, applications, endpoints and authentications of many tenants in PostgreSQL,
answers REST and GraphQL requests about them, raises Kafka events when they change and runs background jobs
through a Valkey queue.  This project models the parts of it that combine concurrency, transactions and
several tables, and proves what they promise.  `dafny verify dfyconfig.toml` checks everything.

| component | files | form |
|---|---|---|
| GraphQL request loader | `request_index.dfy`, `request_protocol.dfy`, `request_progress.dfy`, `request_refusals.dfy`, `request_counts.dfy` | the resolver goroutines as program counters of a step relation over mutexes, shared maps and a one-slot channel; the loader loops as methods |
| tenant de-duplication | `tenant_marks.dfy`, `tenant_merge.dfy`, `tenant_cleanup.dfy`, `tenant_orders.dfy` | a class over the tenants table and the seven tables that refer to it, updated in place |
| cascade delete | `cascade_tables.dfy`, `cascade_events.dfy`, `cascade_announced.dfy` | a class over the tables with transactions; two goroutines and a lock as a step relation |
| bulk create | `bulk_model.dfy`, `bulk_linking.dfy`, `bulk_availability.dfy`, `bulk_assembly.dfy` | parsing and linking loops as methods, the override in place on arrays, a store with a transactional and a non-transactional half |
| job system | `job_worker.dfy`, `job_safety.dfy`, `job_runs.dfy`, `job_forgotten.dfy`, `job_verdicts.dfy`, `retry_job.dfy` | a queue, goroutines, a clock and an append-only log as a state machine; the retry table as a class |
| filter compiler | `like_patterns.dfy`, `filter_compiler.dfy` | compilation loops as methods into a small SQL syntax with a three-valued evaluator and a LIKE matcher |
| password codec | `password_codec.dfy` | padding, chaining and base64 as functions, the key as the state of a class |
| seeding | `seeding.dfy` | a class over a type table, map iteration in arbitrary order |
| shared helpers | `collections.dfy` | filtering, grouping, counting and mapping of sequences |

Each method is proved against a specification function or predicate, and the lemmas below are about those.

## What the proofs found

- A GraphQL request completes on some schedule if and only if it has at most one `sources` root, has one if any
  subresource resolver runs, and has as many `meta` roots as resolvers that send a count, or one fewer.  Otherwise
  the gate never opens, is unlocked twice, or the count channel blocks.  With at most one
  `sources` root, a subresource resolver that finished was refused if and only if that root listed nothing (the filter
  compiler refuses the empty id list), its query failed, or the resolver's own load did.
- The comment at `db/migrations/20220608090500_remove_duplicated_tenant_ids_org_ids.go:147-148` says that the second
  loop skips tenants that were already processed.  The loop does not, so a tenant marked by the first loop can
  receive rows in the second and then survives the clean-up.  The model follows the code.  The scan has no order; some
  order does that if and only if some tenant shares its EBS number with one of another org id and its org id with one
  of another EBS number, and the latter or a tenant of its EBS number owns a row.
- The unique indexes cannot be built after the merge if and only if some tenant held a mark that a shared value gets:
  three tenants with "x", "x" and the first mark of "x" make the migrations fail in every order.
- A source cascade returns all the applications, endpoints and app-authentications its transaction removes if and only
  if the source's applications and endpoints all belong to the deleting tenant; rows of other tenants go silently
  through the `ON DELETE CASCADE` keys.  Connections that other sources share are deleted with them.  The
  authentications that go afterwards take along every app-authentication that names them, those of other sources too,
  and nobody is told: every row that is gone, of the six kinds that have events, has its event if and only if, besides,
  no other app-authentication names an authentication of the deleted rows.  Links between sources and connections have
  no events.
- When a statement of the application cascade fails before the application was read, the log line after the
  transaction follows a nil pointer and the program panics instead of returning the error.
- The length check of bulk create proves that every application was linked to its source if and only if no name is
  shared by two sources of the request that, with all others of that name, support one application type that can be
  asked for.  The same check for endpoints can never fail, so an endpoint whose source name matches nothing keeps the
  raw source id of the request.  An authentication of a created application or endpoint is filed under the first source
  of the request, whatever source its resource is on, and one of an existing resource under no source.  After a
  rollback the authentications that were already inserted stay; those that were not for an existing resource point at
  rows that are gone.
- A source is destroyed although nobody ever sent the delete request of some of its applications, on some run, if and
  only if its applications are not all of the tenant, owned by no user and at most 100.  A failed push to the queue is
  logged and forgotten, so a job can be lost.
- A filter with a LIKE operation means what its name says if and only if its value has no `%`, `_` or `\`.  A filter
  without a name passes the allow-list and compiles to a condition without a column.
- A password survives encryption and decryption if and only if it neither starts nor ends with a NUL.  `Decrypt`
  panics exactly on well-formed base64 that is not a whole number of blocks.  A key that turns out not to be base64
  has already replaced the old one when the initialization panics.

## Model

| member | source | states |
|---|---|---|
| `RequestIndex.LoadIndex` | graph/types.go:51-64 | the query and append loop of a loader build a map from which each lookup reads exactly what a separate query over the loaded rows would return |
| `RequestIndex.AuthenticationsFor` | graph/helpers.go:37-48 | the loop over one bucket returns the two-stage lookup, in order |
| `RequestIndex.LookupIsFilter` | graph/helpers.go:27-48 | grouping and then looking up equals one filter over the rows, on the source or on type and id |
| `RequestIndex.BatchAnswersIff` | graph/types.go:52-63 | the batched map answers a question as its own query would, if and only if the limit cut off none of its rows and all of them carry a listed source |
| `RequestIndex.BatchReplacesSeparateQueries` | graph/types.go:11-63 | for all listed sources at once one batched query equals N separate ones, if and only if the batch fits the limit of 500 |
| `RequestIndex.AuthenticationsAreComplete` | graph/types.go:112-124 | below the limit, the two-stage authentication lookup equals a filter on type and id over the whole table, if and only if each authentication of the resource carries a listed source |
| `RequestProtocol.InitInv` | graphql_handlers.go:38-75 | the invariant holds in the request's initial state, with the gate locked and the channel empty |
| `RequestProtocol.StepKeepsConserved` | graph/types.go:35-134 | every step keeps the balance of the gate, of each kind mutex and of the channel slot against the goroutines' program counters |
| `RequestProtocol.StepKeepsInv` | graph/types.go:35-134 | every step of every goroutine keeps the whole invariant: balances, at most one load a kind, no map ever replaced |
| `RequestProtocol.GateImpliesIds` | graph/types.go:43-52 | whoever holds the gate finds the source id list set |
| `RequestProtocol.StepDoesNotFault` | graph/types.go:129-134 | with at most one `sources` root no step dereferences nil or unlocks an unlocked mutex |
| `RequestProtocol.RunKeepsInv` | graph/schema.resolvers.go:133-194 | the invariant holds after every schedule |
| `RequestProtocol.NoRunFaults` | graph/schema.resolvers.go:133-165 | with at most one `sources` root no schedule reaches a fault |
| `RequestProgress.EveryRunIsShort` | graph/types.go:35-134 | every schedule of every request is at most eight steps a resolver long, plus the step that faults |
| `RequestProgress.Progress` | graph/types.go:35-67 | deadlock freedom: a balanced request that is not finished has an enabled step |
| `RequestProgress.RunsComplete` | graph/schema.resolvers.go:133-194 | every run of a balanced request, cut anywhere, extends to one in which every resolver returned |
| `RequestProgress.CompletionNeedsBalance` | graph/helpers.go:50-59 | a run in which every resolver returned shows that the request was balanced |
| `RequestProgress.CompletesIffBalanced` | graph/types.go:129-134 | a request can complete if and only if it is balanced |
| `RequestProgress.LoadedOnce` | graph/types.go:47-64 | over every interleaving each kind is loaded successfully at most once and all served resolvers read that one map |
| `RequestProgress.ServedAnswersAreExact` | graph/schema.resolvers.go:207-251 | over every interleaving a served resolver reads exactly what its own query would return, if and only if the batch covers its question |
| `RequestProgress.NobodyIsRefused` | graph/types.go:51-66 | if no query fails and the request lists a source, every subresource resolver that finished was served |
| `RequestRefusals.RefusedIff` | graph/types.go:35-134 | over every interleaving, a finished subresource resolver was refused if and only if the `sources` root listed nothing, or its query failed, or the resolver's own load did; failures of other loads refuse nobody else |
| `RequestCounts.MetaAnswers` | graph/schema.resolvers.go:133-194 | over every schedule, a finished `meta` returns the count of a root resolver of the request: that root's total, or 0 if its own query failed |
| `RequestCounts.MetaCountsSources` | graph/schema.resolvers.go:133-165 | without `application_types` roots and failing queries every finished `meta` returns the total of the sources |
| `RequestCounts.CountsAreConserved` | graph/helpers.go:50-59 | what the `meta` resolvers returned, with what the channel holds, is what the roots past their send have counted, each count once |
| `TenantMarks.MarkInjective` | db/migrations/20220608090500_remove_duplicated_tenant_ids_org_ids.go:12-15 | two marks are equal only for equal value and equal counter, whatever dashes and digits the value holds |
| `TenantMarks.MarksLookProcessed` | db/migrations/20220830100000_remove_processed_duplicate_tenants.go:24-69 | the clean-up's pattern recognises exactly the values with the mark prefix, so every mark |
| `TenantMerge.TenantStore.MakeEmptiesNull` | db/migrations/20220608090000_make_empty_external_tenants_org_ids_null.go:18-36 | every tenant keeps its place, id and each column, except that an empty text becomes NULL |
| `TenantMerge.TenantStore.SelectDuplicates` | db/migrations/20220608090500_remove_duplicated_tenant_ids_org_ids.go:37-65 | the scan holds exactly the tenants that share an EBS number or an org id, each once |
| `TenantMerge.DuplicatedIff` | db/migrations/20220608090500_remove_duplicated_tenant_ids_org_ids.go:37-65 | a tenant is duplicated if and only if another one holds the same EBS number or the same org id, NULL being nobody's |
| `TenantMerge.GroupTenants` | db/migrations/20220608090500_remove_duplicated_tenant_ids_org_ids.go:92-105 | one pass builds both groupings, each equal to grouping the named tenants by that column |
| `TenantMerge.TenantStore.UpdateTenantFromTable` | db/migrations/20220608090500_remove_duplicated_tenant_ids_org_ids.go:199-224 | in that table the new tenant owns as many rows as both did, the old one none and every other tenant as many as before; rows keep their ids and order, other tables their rows |
| `TenantMerge.TenantStore.MarkAsDuplicate` | db/migrations/20220608090500_remove_duplicated_tenant_ids_org_ids.go:227-260 | the tenant leaves the group of its value, every other value keeps its number of holders, ids stay unique, and with a mark of the merge the clean-up recognises it |
| `TenantMerge.TenantStore.MoveTenant` | db/migrations/20220608090500_remove_duplicated_tenant_ids_org_ids.go:128-134 | all rows of a duplicate in all seven tables move to the first tenant of its group |
| `TenantMerge.TenantStore.MergeGroups` | db/migrations/20220608090500_remove_duplicated_tenant_ids_org_ids.go:110-145 | in any order of the groups, exactly the non-first members lose their rows to the first member and get the mark of their group and position |
| `TenantMerge.TenantStore.MergeDuplicates` | db/migrations/20220608090500_remove_duplicated_tenant_ids_org_ids.go:84-186 | for every scan order and both map orders, a row of tenant t ends with the org head of the external head of t, and tenants carry the marks of both loops |
| `TenantMerge.MainIsNoDuplicate` | db/migrations/20220608090500_remove_duplicated_tenant_ids_org_ids.go:114-125 | the tenant a duplicate merges into is never a duplicate of that column itself |
| `TenantCleanup.RowsStayConnected` | db/migrations/20220608090500_remove_duplicated_tenant_ids_org_ids.go:107-183 | the old and the new owner of a row are linked through one tenant by equal EBS number and equal org id |
| `TenantCleanup.IndexBuildsIff` | db/migrations/20220608091000_add_tenants_external_tenant_org_id_unique_index.go:24-28 | after the merge, in any scan order, the unique index of a column can be built, if and only if no tenant held before a mark with a counter below the number of tenants that share the marked value |
| `TenantCleanup.IndexesBuild` | db/migrations/20220608091000_add_tenants_external_tenant_org_id_unique_index.go:24-28 | both indexes can be built when no original value starts like a mark |
| `TenantMerge.TenantStore.RemoveProcessed` | db/migrations/20220830100000_remove_processed_duplicate_tenants.go:24-69 | a tenant is removed if and only if it is marked and owns no row in any table; no row loses its tenant and a second run removes nothing |
| `TenantCleanup.CleanUpLosesNothing` | db/migrations/20220830100000_remove_processed_duplicate_tenants.go:46-69 | merge and clean-up add and drop no row in any table, and each row's tenant still exists |
| `TenantCleanup.SurvivorsAre` | db/migrations/20220608090500_remove_duplicated_tenant_ids_org_ids.go:147-183 | a marked tenant survives the clean-up if and only if the first loop marked it and some row ends with it after the second |
| `TenantCleanup.SurvivorsInherit` | db/migrations/20220608090500_remove_duplicated_tenant_ids_org_ids.go:107-183 | the same on the groups: a tenant marked as an EBS duplicate survives if and only if it heads the org group of another tenant that owns rows after the first loop |
| `TenantCleanup.Migrate` | db/migrations/20220608091000_add_tenants_external_tenant_org_id_unique_index.go:24-44 | the four migrations in order, from any state whose keys hold: with empty texts made NULL and all else kept, they fail if and only if, in either column, some tenant held a mark of a shared value; otherwise both columns are unique, only marked tenants without rows are gone, and each row is with the owner the loops give it and has its tenant |
| `TenantCleanup.ForgedTenantsFail` | db/migrations/20220608091000_add_tenants_external_tenant_org_id_unique_index.go:24-28 | three tenants for which the index cannot be built in any order |
| `TenantCleanup.EveryMarkedTenantIsRemoved` | db/migrations/20220830100000_remove_processed_duplicate_tenants.go:46-69 | if no tenant marked by the first loop heads an org group of two or more, every marked tenant is removed |
| `TenantCleanup.MarkedTenantReceivesRows` | db/migrations/20220608090500_remove_duplicated_tenant_ids_org_ids.go:147-148 | three tenants for which the announced skipping does not happen: a marked tenant receives rows |
| `TenantOrders.SomeOrderLeavesMarkedIff` | db/migrations/20220608090500_remove_duplicated_tenant_ids_org_ids.go:37-183 | some order of the scan leaves a marked tenant after the clean-up, if and only if some tenant has an EBS mate that is no org mate, and an org mate that is no EBS mate and around which some row is owned; the condition is on tenants and rows alone |
| `CascadeTables.Database.DeleteSourceCascade` | dao/source_dao.go:475-634 | it fails if and only if a statement that is run, or the commit, fails, and then all tables are as they were; otherwise the tables and the returned rows are those of the five deletes in order |
| `CascadeTables.Database.DeleteApplicationCascade` | dao/application_dao.go:335-411 | it panics if and only if the pointer to the application was not set when a log line follows it; the deletes are committed if and only if nothing the transaction runs fails, so also before the panic over an application that was not found, and otherwise the tables are unchanged |
| `CascadeTables.ApplicationFoundIs` | dao/application_dao.go:374-382 | the application found is the tenant's row of that id |
| `CascadeTables.EveryStageKeepsKeys` | dao/source_dao.go:492-601 | after every single delete of the cascade all foreign keys hold |
| `CascadeTables.AfterSourceIs` | dao/source_dao.go:492-610 | the final tables are the initial ones without the source and everything below it, and all keys hold |
| `CascadeTables.ReturnedIff` | dao/source_dao.go:494-601 | the returned rows are exactly the tenant's applications and endpoints on the source, the app-authentications of those applications, the connections linked by the tenant, and the source if it is the tenant's |
| `CascadeTables.OtherTenantsSourceStays` | dao/source_dao.go:587-601 | a source of another tenant is not deleted |
| `CascadeTables.ReturnedIsRemovedIff` | dao/source_dao.go:494-601 | the returned applications and endpoints are exactly those the transaction removed, if and only if all of them belong to the deleting tenant; then the app-authentications are too, and only this source is gone |
| `CascadeTables.ReturnedConnectionsAreRemoved` | dao/source_dao.go:563-584 | the returned connections are exactly the removed ones, shared or not |
| `CascadeTables.OtherSourcesUntouched` | dao/source_dao.go:494-561 | after the transaction, applications, endpoints and app-authentications of every other source read as before, in order |
| `CascadeTables.AfterApplicationIs` | dao/application_dao.go:348-396 | deleting an application keeps the keys, removes it and its app-authentications only, and returns all of those if and only if they share the tenant |
| `CascadeEvents.EveryInterleavingIsOrdered` | service/subresource_destroyer.go:40-121 | in every interleaving of the two goroutines the events come in the planned order, the deleter acts only on the complete list, and who is about to unlock holds the lock |
| `CascadeEvents.SomebodyMoves` | service/subresource_destroyer.go:184-202 | until both goroutines are done one of them can move |
| `CascadeEvents.EveryRunEnds` | service/subresource_destroyer.go:36-205 | every run is bounded by the number of events, fetches and authentications |
| `CascadeEvents.HealthyRunDeletes` | dao/authentication_db_dao.go:473-517 | when no query fails, the deleter deletes exactly the collected authentications of the tenant, and the app-authentications that name them go along |
| `CascadeEvents.HealthyRunsComplete` | service/subresource_destroyer.go:36-205 | every run without a failure so far, cut anywhere, extends to one in which both goroutines are done |
| `CascadeTables.DeleteAuthenticationsKeepsKeys` | db/migrations/sql/1_initial_schema.sql:522-523 | deleting any authentications, with the app-authentications that name them, keeps all foreign keys |
| `CascadeAnnounced.CollectedAreOrphaned` | dao/authentication_db_dao.go:455-471 | the three fetches list exactly the authentications of the tenant on the source and on the rows returned with it |
| `CascadeAnnounced.AnnouncedIff` | service/subresource_destroyer.go:45-202 | for any deletion and every interleaving without failures, each row that is gone, of the six kinds that have events, has its event if and only if the transaction returned all of those it removed and left no app-authentication that names an authentication about to go |
| `CascadeAnnounced.SourceDeletionIsAnnounced` | service/subresource_destroyer.go:45-202 | end to end: exactly the orphaned authentications and the app-authentications naming them go, and all keys hold; the events come kind by kind, app-authentications, applications, endpoints, connections, source, authentications, and those of each kind name the returned rows in order, once each; each removed row of the six kinds has its event if and only if the source is of one tenant and no stray app-authentication names an orphan |
| `CascadeAnnounced.LinksGoInSilence` | db/migrations/sql/1_initial_schema.sql:598-602 | a link between a source and a connection, for which there is no event, is gone in the end if and only if it is of the source or to a connection that the source has under the tenant |
| `CascadeAnnounced.ApplicationDeletionIsAnnounced` | service/subresource_destroyer.go:123-155 | the same for an application: end state, keys, events in that order, and all are announced if and only if its app-authentications share its tenant and those of other applications name none of its authentications |
| `CascadeAnnounced.EndpointDeletionIsAnnounced` | service/subresource_destroyer.go:156-181 | the same for an endpoint: all are announced if and only if no app-authentication names one of its authentications |
| `CascadeAnnounced.StrayGoesInSilence` | db/migrations/sql/1_initial_schema.sql:522-523 | every app-authentication of another source that names an orphaned authentication is gone in the end without an event |
| `CascadeAnnounced.StrayExists` | service/application_authentication_validation.go:8-24 | a database with sound keys and a complete run of the deletion where that happens |
| `BulkModel.UserResource.AddSourceAndApplicationTypeNames` | model/user_resource.go:17-22 | the names are appended when a user is present |
| `BulkModel.UserResourceFromApplications` | service/bulk_create.go:548-571 | fails if and only if some application has no type, and otherwise collects the names of the user-owned ones |
| `BulkModel.OwnsSourceIff` | model/user_resource.go:24-40 | a source is user-owned if and only if a user is present and a requested application of a user-owned type names it |
| `BulkModel.OwnsApplicationIff` | model/user_resource.go:46-55 | an application type is the user's if and only if a user is present and its name, cut at the last slash, was requested with a user-owned type |
| `BulkModel.LastSegmentIs` | model/user_resource.go:46-55 | the cut name is the text itself without a slash, and what follows the last slash otherwise |
| `BulkModel.TypeOfSourceIs` | service/bulk_create.go:153-183 | an id finds its row whatever the name; without an id, a name without wildcards finds the only row whose name contains it |
| `BulkModel.TypeOfApplicationIs` | service/bulk_create.go:512-546 | the same for the type of an application |
| `BulkLinking.ParseSources` | service/bulk_create.go:142-213 | succeeds if and only if every request parses, with one source a request, in order |
| `BulkLinking.ParseSourceIs` | service/source_validation.go:21-66 | a source is accepted if and only if its type is found, its name is new and not empty and its status empty or one of the four, and then has those, in_progress for the empty status |
| `BulkLinking.LinkApplication` | service/bulk_create.go:218-248 | one link for every source of the requested name, in order, unless a type is incompatible |
| `BulkLinking.ParseApplications` | service/bulk_create.go:215-257 | succeeds if and only if every request is acceptable and there are as many links as requests |
| `BulkLinking.CountingLinksInOrder` | service/bulk_create.go:218-254 | with distinct source names, passing the length check means application i is request i linked to a source of its name |
| `BulkLinking.TwoMatchesDefeatCounting` | service/bulk_create.go:231-254 | whenever an acceptable request matches two sources, the parser accepts a list of requests in which some application is not linked |
| `BulkLinking.CountingIsSoundIff` | service/bulk_create.go:218-254 | all applications of all accepted lists are linked in order, if and only if no two sources share a name such that all sources of that name support one offered application type |
| `BulkLinking.OfferedIff` | service/bulk_create.go:512-546 | with unique ids, the application types a request can ask for are those of the table |
| `BulkLinking.ParseEndpoints` | service/bulk_create.go:259-301 | one endpoint a request, in order, and never the error of the length check |
| `BulkLinking.EndpointSourceIs` | service/bulk_create.go:265-276 | an endpoint belongs to the source of its name, or to the raw source id of the request when no name matches |
| `BulkLinking.LinkUpAuthentications` | service/bulk_create.go:303-422 | on success authentication i is the link of request i, with none skipped |
| `BulkLinking.LinksIff` | service/bulk_create.go:303-414 | a request links if and only if its secret can be stored and it names an existing resource by id, or is valid and its type is Source or something created answers to its name |
| `BulkAvailability.SetCorrespondingResourcesAsAvailable` | service/bulk_create.go:576-636 | the nested in-place loops set available exactly the applications with a qualifying source, the sources with a qualifying application and the authentications of either, and leave the rest |
| `BulkAvailability.ApplicationAvailableIff` | service/bulk_create.go:671-674 | an application ends available if and only if it was or it is the image builder on an Amazon source or the cloud meter on a Google source; nothing else of it changes |
| `BulkAvailability.SourceAvailableIff` | service/bulk_create.go:577-606 | a source ends available if and only if it was or carries such an application |
| `BulkAvailability.AuthenticationAvailableIff` | service/bulk_create.go:607-636 | an authentication ends available if and only if it was or its source or application became so |
| `BulkAvailability.SourceIdsAre` | service/bulk_create.go:577-606 | the collected source ids are those of the sources with a qualifying application |
| `BulkAvailability.ApplicationIdsAre` | service/bulk_create.go:577-606 | the collected application ids are those of the applications with a qualifying source |
| `BulkAvailability.UpdatesAgree` | service/bulk_create.go:638-660 | with distinct ids the three UPDATE statements change the rows as the loops changed their copies in memory |
| `BulkAssembly.BulkStore.CreateAuthentications` | service/bulk_create.go:86-114 | inserts the linked authentications in order up to the first failure, and collects an app-authentication for each Application-typed one |
| `BulkAssembly.BulkStore.BulkAssembly` | service/bulk_create.go:34-127 | either all that the request plans is created, overridden alike in output and tables, or the tables are unchanged and exactly the authentications inserted before the failure remain |
| `BulkAssembly.TablesFollowMemory` | service/bulk_create.go:638-660 | the UPDATE statements touch only the new rows, exactly as the slices |
| `BulkAssembly.ApplicationsAreLinked` | service/bulk_create.go:215-257 | with distinct names application i has the next id, the requested type and the id of the created source of its name |
| `BulkAssembly.NamesAreRequested` | service/bulk_create.go:142-213 | sources are created in order with the requested names, so distinctness is the caller's to check |
| `BulkAssembly.SourcesAreRequested` | service/bulk_create.go:142-213 | source i has the next id, the requested type and status, and is the user's if and only if a requested application of a user-owned type names it |
| `BulkAssembly.ApplicationOwnerIff` | service/bulk_create.go:236-248 | with distinct names application i is in progress, and is the user's if and only if applications of user-owned types were requested for its source and under its type name |
| `BulkAssembly.AppAuthsAre` | service/bulk_create.go:92-113 | an app-authentication exists for exactly the Application-typed authentications, with their application |
| `BulkAssembly.AppAuthOwnerIff` | service/bulk_create.go:102-110 | an app-authentication is the user's if and only if its application was created by the same request and the name of its type was requested with a user-owned type |
| `BulkAssembly.LinkedSourceIs` | service/bulk_create.go:329-397 | an authentication of an existing resource gets no source id, any other that of the first source |
| `BulkAssembly.SourceResourceIs` | service/bulk_create.go:367-369 | a Source-typed authentication that names no existing resource points at the first created source, in both columns |
| `BulkAssembly.AuthenticationsAreRequested` | service/bulk_create.go:303-364 | authentication i has the next id, the requested type, status in_progress, and for an existing resource the id its name converts to and no owner |
| `BulkAssembly.AuthenticationOwnerIff` | service/bulk_create.go:371-390 | a new authentication is the user's if and only if a requested application of a user-owned type names the first source and, for an application, one is of the named type; never for an endpoint |
| `BulkAssembly.ApplicationSourceIff` | service/bulk_create.go:377-384 | an authentication for a created application is on the first requested one of the named type, and its source id is that application's source, if and only if the application was asked for on the first source |
| `BulkAssembly.EndpointSourceIff` | service/bulk_create.go:390-397 | the same for a created endpoint, the first whose host contains the name: it asks for the first source, or for none and carries the id the first source gets |
| `BulkAssembly.OrphansAre` | service/bulk_create.go:86-90 | after a rollback a remaining authentication belongs to an existing resource if and only if its request named one by id; the others point at rows that are gone |
| `JobSafety.ThreadInvStays` | jobs/worker.go:82-98 | nothing another job or handler does takes away what a running job relies on |
| `JobSafety.TurnIsJustified` | jobs/superkey.go:56-110 | every event a job causes has its cause earlier in the log |
| `JobSafety.LastTurnGivesVerdict` | jobs/superkey.go:71-110 | a job that ends leaves its purpose behind: a source job filed the source's destruction if and only if it got the list and no request failed; requests were sent for all applications and exactly the accepted ones filed; a destroy job ran its cascade |
| `JobRuns.EveryRunKeepsInv` | jobs/worker.go:25-68 | the invariant holds in every reachable state of queue, goroutines, clock and log |
| `JobRuns.JobsAreConserved` | jobs/worker.go:32-97 | every job is queued, in flight or ended, in exactly one place, popped at most once, and its cascade runs at most once |
| `JobRuns.ApplicationsGoAfterTheirRequest` | jobs/superkey.go:92-110 | an application is destroyed only if its delete request was accepted at least 15 seconds before |
| `JobRuns.SourcesGoAfterTheirApplications` | jobs/superkey.go:56-90 | a source is destroyed only if at least 15 seconds before every listed application's request was accepted and its job filed |
| `JobRuns.ApplicationsLeaveTheQueueFirst` | jobs/runner.go:25-44 | when a source's job left the queue, those of all its listed applications had left it or were lost in the push |
| `JobForgotten.AllListedIff` | dao/application_dao.go:77-98 | the listing returns all applications of a source, if and only if they are all of the tenant, owned by no user and at most 100 |
| `JobForgotten.NobodyIsForgottenIff` | jobs/superkey.go:56-90 | every application the source had when listed had its request accepted by the time the source's destroy job is filed, if and only if they are all of the tenant, owned by no user and at most 100 |
| `JobForgotten.SourceGoesAnyway` | jobs/superkey.go:56-110 | for any rows there is a run that lists them, asks for listed applications only, and destroys the source |
| `JobForgotten.SomebodyIsForgottenIff` | jobs/superkey.go:61-69 | some run destroys the source without anybody's accepted request for one of its applications, if and only if they are not all of the tenant, owned by no user and at most 100 |
| `JobRuns.NoJobIsStuck` | jobs/worker.go:82-98 | a job has a next step from the moment it was popped, or 15 seconds later if it destroys something |
| `JobRuns.EveryJobEnds` | jobs/async_destroy.go:37-54 | in any run a job's goroutine takes at most 204 steps |
| `JobVerdicts.DestroyJobsCascade` | jobs/async_destroy.go:37-54 | a destroy job that ended ran the cascade of its source or application exactly once, and none for an unknown model |
| `JobVerdicts.ApplicationJobsFileIff` | jobs/superkey.go:92-110 | an application job that ended sent that application's request, filed its destruction if and only if the request was accepted, and touched no other |
| `JobVerdicts.SourceJobsFileIff` | jobs/superkey.go:71-89 | a source job that ended sent the request of every listed application, whatever became of the others, and filed the destruction of exactly those accepted |
| `RetryJob.RetryTable.Run` | jobs/retry_create.go:29-87 | a committed tick retires the available and increments the picked applications, a failed one changes nothing, and the resends happen either way once the list was read |
| `RetryJob.TickIsPointwise` | jobs/retry_create.go:34-79 | the three statements together change each application by its own status, age and counter only |
| `RetryJob.ResentIff` | jobs/retry_create.go:54-60 | a tick resends for an application if and only if it is not available, recent, and its counter is below five |
| `RetryJob.CountersAfterTick` | jobs/retry_create.go:34-83 | a committed tick leaves five for the available, one more for the resent and all else as it was |
| `RetryJob.OthersKeepCounters` | jobs/retry_create.go:29-87 | between ticks an application is created with counter 0 and a new id, changes its status or is deleted, and no counter moves |
| `RetryJob.RetriesAreBounded` | jobs/retry_create.go:13-87 | over any run the counter stays within 0 to 5 and counts the committed resends, so resends are at most five plus the rolled-back ticks |
| `RetryJob.AvailableIsNeverResent` | jobs/retry_create.go:32-40 | once a committed tick saw an application available, no later tick resends for it |
| `RetryJob.EveryTickResendsUntilTheBound` | jobs/retry_create.go:49-79 | an application that stays unavailable and recent is resent on every tick until its counter is used up |
| `LikePatterns.TokensAre` | dao/filtering.go:233-248 | a pattern matches what its first token matches alone, followed by what the other tokens match |
| `LikePatterns.ContainsExactly` | dao/filtering.go:233-234 | the pattern of `contains` means substring on all strings, if and only if the value has no wildcard or escape |
| `LikePatterns.StartsWithExactly` | dao/filtering.go:235-236 | the same for `starts_with` and prefixes |
| `LikePatterns.EndsWithExactly` | dao/filtering.go:237-238 | the same for `ends_with` and suffixes |
| `LikePatterns.ContainsFoldedExactly` | dao/filtering.go:243-244 | the same for `contains_i`, up to letter case |
| `LikePatterns.StartsWithFoldedExactly` | dao/filtering.go:245-246 | the same for `starts_with_i`, up to letter case |
| `LikePatterns.EndsWithFoldedExactly` | dao/filtering.go:247-248 | the same for `ends_with_i`, up to letter case |
| `FilterCompiler.ApplySortBy` | dao/filtering.go:260-307 | succeeds if and only if each value names a valid allowed column and a direction, and appends the terms in order |
| `FilterCompiler.SortValueMeans` | dao/filtering.go:263-297 | a sort value is a listed column, ascending alone or with "asc", descending with "desc", in any case; another second word is refused |
| `FilterCompiler.ApplyFilters` | dao/filtering.go:97-258 | succeeds if and only if each filter is acceptable by itself, and returns the compiled statement |
| `FilterCompiler.FilterMeansIff` | dao/filtering.go:213-251 | a condition says on every row what its filter asks for, if and only if a pattern's value is free of wildcards and escapes |
| `FilterCompiler.OperationsAre` | dao/filtering.go:213-251 | every filter needs a value, and exactly the seventeen operations are known |
| `FilterCompiler.SubresourcesAre` | dao/filtering.go:164-207 | sources can be narrowed by source type and application, applications by application type, and no other table by anything |
| `FilterCompiler.NamelessFilterPasses` | dao/filtering.go:155-161 | a filter without a name is accepted and compiles to a condition on a column without a name |
| `FilterCompiler.CompilationPreservesMeaning` | dao/filtering.go:97-258 | with such values the statement selects a row, in three-valued logic, if and only if every filter holds of it |
| `FilterCompiler.OrderOfFiltersDoesNotMatter` | dao/filtering.go:109-255 | acceptance and the selected rows depend only on which filters a list holds |
| `FilterCompiler.JoinsAre` | dao/filtering.go:110-207 | a subresource is joined at most once, and if and only if a filter or sort uses it |
| `FilterCompiler.ConditionsUseListedColumns` | dao/filtering.go:155-208 | every named column of the WHERE clause is in the allow-list of the table its prefix denotes, and the prefix is joined |
| `FilterCompiler.OrderUsesListedColumns` | dao/filtering.go:263-300 | every sort column is valid and in the allow-list of its table |
| `FilterCompiler.OrderIs` | dao/filtering.go:260-307 | ORDER BY lists the requested terms in the order of the filters |
| `FilterCompiler.DistinctIff` | dao/filtering.go:213-217 | DISTINCT is asked for if and only if some filter compares with a list |
| `FilterCompiler.SecretsAreNotNamed` | dao/filtering.go:11-66 | with the program's allow-list no statement compares or sorts by a stored password |
| `PasswordCodec.PaddedLength` | util/encryption.go:152-173 | the padded text is the text and NULs, a positive multiple of the block size, at most one block longer, and equal only for a text of one block |
| `PasswordCodec.TrimUndoesPad` | util/encryption.go:124-127 | trimming takes exactly the padding away again |
| `PasswordCodec.UnchainUndoesChain` | util/encryption.go:115-146 | for every block permutation, decrypting the chained blocks gives back the plain text |
| `PasswordCodec.ChainIs` | util/encryption.go:130-150 | each output block is the block cipher of its text block masked with the output block before it, the first with the initialisation vector |
| `PasswordCodec.XorIs` | util/encryption.go:130-150 | masking is the exclusive or of each of the eight bits, and a zero mask changes nothing |
| `PasswordCodec.Base64Vectors` | util/encryption.go:91-92 | the test vectors of section 10 of RFC 4648 for up to three bytes |
| `PasswordCodec.Base64RoundTrip` | util/encryption.go:91-106 | decoding the unpadded base64 of any bytes gives them back |
| `PasswordCodec.BreaksAreSkipped` | util/encryption.go:103-106 | line breaks anywhere in the encoded text change nothing |
| `PasswordCodec.Encryption.InitializeEncryption` | util/encryption.go:25-78 | panics if and only if there is no key or it is not base64, with the key variable already holding the encoded text, and otherwise keeps the decoded key |
| `PasswordCodec.Encryption.Encrypt` | util/encryption.go:80-150 | fails exactly without a usable key, and otherwise yields the sealed text |
| `PasswordCodec.Encryption.Decrypt` | util/encryption.go:95-128 | fails without a usable key or on bad base64, and otherwise unseals or panics |
| `PasswordCodec.RoundTrip` | util/encryption.go:80-128 | decrypting the encryption of any text gives the text without leading and trailing NULs |
| `PasswordCodec.PasswordSurvivesIff` | util/encryption.go:80-128 | a text comes back unchanged if and only if it neither starts nor ends with a NUL |
| `PasswordCodec.StoredAlikeIff` | util/encryption.go:130-150 | two texts are stored alike if and only if they pad to the same blocks |
| `PasswordCodec.PanicsIff` | util/encryption.go:109-122 | decryption panics if and only if the decoded bytes are no whole number of blocks, and never on an encrypted text |
| `Seeding.TypeTable.LoadSeeds` | dao/seeding.go:346-361 | there is no hash exactly when the query fails; it holds exactly the names of the table, each with its row's id |
| `Seeding.TypeTable.ApplySeeds` | dao/seeding.go:74-112 | in any order every seed that is not skipped has a row with the seed's fields, old ids are kept and struck off the hash |
| `Seeding.TypeTable.DeleteLeft` | dao/seeding.go:114-124 | exactly the rows left in the hash are deleted, unless a statement fails; no other row is touched either way |
| `Seeding.TypeTable.Seed` | dao/seeding.go:46-128 | the names end as the seed names minus the skipped ones, with the seed's fields, under the old id where there was one; a failing load changes nothing, a failing statement costs no row of a wanted name, and no row at all when it is not a deletion |
| `Seeding.SecondRunChangesNothing` | dao/seeding.go:130-216 | a second run with the same seeds changes no row |
| `Seeding.OrderShowsOnlyInNewIds` | dao/seeding.go:74-112 | two iteration orders agree on names, fields and the ids of the names that were there |
| `Seeding.SkippedRowsAreDeleted` | dao/seeding.go:75-119 | the row of a skipped name that is in the table does not survive |

## Left out

- The database, the event broker, the queue server and HTTP as such: a table is a sequence or map, a send or a statement succeeds or fails, a pop returns the head of the queue.
- GraphQL: memory is sequentially consistent and each shared access is one step; the tables do not change during a request; source ids are integers rather than their decimal texts.
- GraphQL: a fault ends the request, although the library may recover a panicking resolver on its own.
- Tenant migrations: a failing statement, which rolls the whole migration back; the migration lock; `TranslateTenants`.
- Tenant migrations: users' own columns; only the tenant column of the seven tables is modelled.
- Cascade: deleting an unknown resource type does nothing but start the second goroutine, which waits forever; the SQL statement that deletes an endpoint and the `Tenant` preloads.
- Cascade: whether fetching into a nil pointer leaves it nil when no row arrives is up to the object mapper; both possibilities are modelled, and the event of a source that was not found is not.
- Cascade: other requests do not change the tables between the transaction and the deletion of the authentications.
- Cascade: events that cannot be sent are only logged, so the model's events are the attempts.
- Bulk create: the columns that are copied unchanged (uid, version, extra, scheme, path, port and so on) and the event messages that follow the commit; letter-case folding of resource types; conversion of raw ids.
- Bulk create: endpoint validation other than the source id, authentication validation and the secret store are parameters.
- Jobs: a crash loses the goroutine it hits, at any step; retries of a popped job do not exist in the program. JSON encoding of jobs, headers and identities, and the health check.
- Jobs: the tenant that destroy jobs and delete requests carry on; a listing reads the applications table once, in whatever order the query returns it, and fails at will, which covers the lookup of the source.
- Jobs: the delete request and the cascade of a job are one step each with either outcome; the cascade itself is the cascade component.
- Retry job: the age limit is a predicate on the application id, and the content of the resent messages is not modelled.
- `FilterCompiler.CompilationPreservesMeaning`: a condition without a column name and a pattern that ends in an escape make PostgreSQL refuse the statement, which the evaluator does not represent; values compare by an arbitrary comparison for each column.
- Filter compiler: letter case is folded for ASCII letters only, and white space beyond the Latin-1 range does not separate sort fields.
- Filter compiler: parsing of query parameters into filters, pagination, and what a join yields; a row is the joined row.
- Password codec: the inside of the AES block cipher, which is any permutation of blocks with its inverse; the environment and the development file are parameters.
- Seeding: reading the YAML files, the meta-data tables, and what deleting a type takes along through foreign keys.
- REST handlers, authentication and authorization of callers, mapping of rows to responses, logging, configuration and updates of single fields: they keep no state across calls and take part in none of the protocols above.
