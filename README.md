# Azure provider value mappings in Dafny

This project models three pieces of local logic in the azurerm Terraform
provider. Each one converts values between Terraform configuration and state
and the Azure Resource Manager API objects. The rest of the provider calls
remote services.

- **Cosmos DB MongoDB collection indexes** (`cosmos_mongo_index.dfy`, module
  `CosmosMongoIndex`).
  - `expand` turns the `index` blocks and an optional default TTL into the
    API's index list. The TTL becomes a trailing `_ts` index whose
    `ExpireAfterSeconds` is the TTL converted to int32.
  - `flatten` routes each API index by its first key. `_id` and
    `DocumentDBDefaultIndex` go to `system_indexes`. `_ts` sets the TTL.
    Any other first key goes to `index`. Indexes without keys are dropped.
  - The Go code builds both results with `for` loops that grow slices. Here
    each is a method with a loop, proved equal to a recursive specification
    function. The properties are proved as lemmas about those functions.
  - The round trip needs every configured block to have at least one key. An
    empty key list is dropped by `flatten`, so it does not come back.
- **Integration account validators** (`logic_validate.dfy`, module
  `LogicValidate`).
  - The name pattern `^[\w-().]{1,80}$` is modelled as a counted repetition
    matcher. It is proved equal to the closed form: 1 to 80 characters, each an
    ASCII letter or digit or one of `_ - ( ) .`.
  - Go compiles the pattern with Perl syntax. There, `\w` is ASCII only, a
    `-` after `\w` is a literal, and `$` matches only at the very end of
    the text.
  - `IntegrationAccountID` returns a warnings list and an errors list. The ID
    parser it calls is a function parameter.
- **Data Share snapshot schedule** (`datashare_schedule.dfy`, module
  `DataShareSchedule`).
  - `expand` and `flatten` convert between the `snapshot_schedule` list
    and `ScheduledSynchronizationSetting`.
  - RFC 3339 (section 5.6) parsing and formatting, the zero time and the
    `IsZero` test (true at the zero moment in any location) are a
    parameter record over an opaque `Instant` type.
  - In Go, `flatten` reads the recurrence and the time through an embedded
    properties pointer. A setting whose properties are nil makes Go panic.
    The model returns `Failure(NilPointerDereference)` for that case.

Go nil pointers are `Option` values (`wrappers.dfy`). Go's `interface{}`
maps and lists are typed datatypes.

## Model

| member | source | states |
|---|---|---|
| CosmosMongoIndex.Int32Of | vendor/github.com/terraform-providers/terraform-provider-azurerm/azurerm/internal/services/cosmos/cosmosdb_mongo_collection_resource.go:380 | the result is in the int32 range and congruent to the input modulo 2^32, so it equals the input when the input fits |
| CosmosMongoIndex.DefaultTtl | vendor/github.com/terraform-providers/terraform-provider-azurerm/azurerm/internal/services/cosmos/cosmosdb_mongo_collection_resource.go:154-157 | a TTL exists exactly when `default_ttl_seconds` > 0, and it is that value; 0 and -1 give none |
| CosmosMongoIndex.ExpandIndexes | vendor/github.com/terraform-providers/terraform-provider-azurerm/azurerm/internal/services/cosmos/cosmosdb_mongo_collection_resource.go:356-386 | one API index per block in input order, each with the block's keys and `unique` flag, then exactly one extra last `_ts` index with `ExpireAfterSeconds` when a TTL is given |
| CosmosMongoIndex.ExpandCosmosMongoCollectionIndex | vendor/github.com/terraform-providers/terraform-provider-azurerm/azurerm/internal/services/cosmos/cosmosdb_mongo_collection_resource.go:356-386 | the loop that appends block by block, then the TTL index, produces exactly ExpandIndexes |
| CosmosMongoIndex.FlattenCosmosMongoCollectionIndex | vendor/github.com/terraform-providers/terraform-provider-azurerm/azurerm/internal/services/cosmos/cosmosdb_mongo_collection_resource.go:388-443 | a nil input gives empty lists and no TTL; otherwise the switch-in-a-loop produces exactly the prefix-by-prefix specification of flatten |
| CosmosMongoIndex.FlattenConcat | vendor/github.com/terraform-providers/terraform-provider-azurerm/azurerm/internal/services/cosmos/cosmosdb_mongo_collection_resource.go:396-440 | flattening a + b concatenates the user lists and the system lists of a and b in order, and a TTL found in b overrides one from a |
| CosmosMongoIndex.FlattenTtlIsLast | vendor/github.com/terraform-providers/terraform-provider-azurerm/azurerm/internal/services/cosmos/cosmosdb_mongo_collection_resource.go:422-426 | there is a TTL exactly when some `_ts` index carries `ExpireAfterSeconds`, and it is the value of the last such index; a `_ts` index without it contributes nothing |
| CosmosMongoIndex.FlattenClassifies | vendor/github.com/terraform-providers/terraform-provider-azurerm/azurerm/internal/services/cosmos/cosmosdb_mongo_collection_resource.go:400-438 | every reported user index comes from an input index with the same keys, has a non-reserved first key and the input's `unique` (false when nil); every system index starts with `_id` or `DocumentDBDefaultIndex`, and an `_id` index is unique; no more indexes are reported than were given |
| CosmosMongoIndex.FlattenKeepsEveryIndex | vendor/github.com/terraform-providers/terraform-provider-azurerm/azurerm/internal/services/cosmos/cosmosdb_mongo_collection_resource.go:400-438 | every input index with keys is reported in the list its first key selects |
| CosmosMongoIndex.FlattenExpandedBlocks | vendor/github.com/terraform-providers/terraform-provider-azurerm/azurerm/internal/services/cosmos/cosmosdb_mongo_collection_resource.go:359-372 | flattening the expansion of settable blocks without a TTL gives exactly those blocks as user indexes |
| CosmosMongoIndex.FlattenAppendTtl | vendor/github.com/terraform-providers/terraform-provider-azurerm/azurerm/internal/services/cosmos/cosmosdb_mongo_collection_resource.go:374-383 | appending the `_ts` TTL index sets the flattened TTL to the int32 TTL and changes nothing else |
| CosmosMongoIndex.ExpandFlattenRoundTrip | vendor/github.com/terraform-providers/terraform-provider-azurerm/azurerm/internal/services/cosmos/cosmosdb_mongo_collection_resource.go:356-443 | flatten(expand(idx, ttl)) returns idx as user indexes, no system indexes and the int32 TTL, when every block has keys and a first key other than `_id`, `_ts`, `DocumentDBDefaultIndex` |
| CosmosMongoIndex.ConfigRoundTrip | vendor/github.com/terraform-providers/terraform-provider-azurerm/azurerm/internal/services/cosmos/cosmosdb_mongo_collection_resource.go:154-163 | from configuration: a `default_ttl_seconds` between 1 and 2^31-1 comes back unchanged, and -1 or 0 comes back as no TTL |
| CosmosMongoIndex.TtlBeyondInt32Wraps | vendor/github.com/terraform-providers/terraform-provider-azurerm/azurerm/internal/services/cosmos/cosmosdb_mongo_collection_resource.go:380 | a `default_ttl_seconds` of 2^31 is sent, and read back, as -2^31 |
| CosmosMongoIndex.IdIndexComesBackAsSystemIndex | vendor/github.com/terraform-providers/terraform-provider-azurerm/azurerm/internal/services/cosmos/cosmosdb_mongo_collection_resource.go:405-410 | a configured index whose first key is `_id` comes back as a system index with `unique` = true, not as a user index |
| LogicValidate.MatchRepeatIff | vendor/github.com/terraform-providers/terraform-provider-azurerm/azurerm/internal/services/logic/validate/logic.go:14 | the counted repetition `[\w-().]{lo,hi}`, anchored at both ends, matches exactly the strings of length lo to hi whose characters are all in the class |
| LogicValidate.IntegrationAccountNameIff | vendor/github.com/terraform-providers/terraform-provider-azurerm/azurerm/internal/services/logic/validate/logic.go:12-16 | a name is accepted if and only if it has 1 to 80 characters, each an ASCII letter, a digit, `_`, `-`, `(`, `)` or `.` |
| LogicValidate.EmptyNameRejected | vendor/github.com/terraform-providers/terraform-provider-azurerm/azurerm/internal/services/logic/validate/logic.go:14 | the empty string is rejected |
| LogicValidate.NonAsciiNameRejected | vendor/github.com/terraform-providers/terraform-provider-azurerm/azurerm/internal/services/logic/validate/logic.go:14 | a name containing any non-ASCII character, letters included, is rejected |
| LogicValidate.LongNameRejected | vendor/github.com/terraform-providers/terraform-provider-azurerm/azurerm/internal/services/logic/validate/logic.go:14 | a name longer than 80 characters is rejected |
| LogicValidate.TrailingNewlineRejected | vendor/github.com/terraform-providers/terraform-provider-azurerm/azurerm/internal/services/logic/validate/logic.go:14 | `$` does not skip a final newline, so a name followed by a newline is rejected |
| LogicValidate.SampleNameAccepted | vendor/github.com/terraform-providers/terraform-provider-azurerm/azurerm/internal/services/logic/validate/logic.go:14 | a name using every allowed punctuation character is accepted |
| LogicValidate.IntegrationAccountId | vendor/github.com/terraform-providers/terraform-provider-azurerm/azurerm/internal/services/logic/validate/logic.go:18-30 | never a warning and at most one error; a non-string value gives exactly the type error; a string gives no error exactly when the ID parses, and otherwise one error carrying the key and the parser's reason |
| DataShareSchedule.ExpandSnapshotSchedule | vendor/github.com/terraform-providers/terraform-provider-azurerm/azurerm/internal/services/datashare/resource_arm_data_share.go:281-297 | no setting exactly for an empty list; otherwise a ScheduleBased setting with no name whose recurrence is the first block's, and whose time is the parsed start time, or the zero time when it does not parse |
| DataShareSchedule.FlattenSnapshotSchedule | vendor/github.com/terraform-providers/terraform-provider-azurerm/azurerm/internal/services/datashare/resource_arm_data_share.go:299-316 | a nil setting gives an empty list; otherwise exactly one entry with the setting's name and recurrence, and a start time that is empty when the time is nil or at the zero moment in any location (`IsZero`) and its RFC 3339 text otherwise; nil properties panic |
| DataShareSchedule.ExpandReadsOnlyFirst | vendor/github.com/terraform-providers/terraform-provider-azurerm/azurerm/internal/services/datashare/resource_arm_data_share.go:286 | blocks after the first have no effect on expand |
| DataShareSchedule.ScheduleRoundTrip | vendor/github.com/terraform-providers/terraform-provider-azurerm/azurerm/internal/services/datashare/resource_arm_data_share.go:281-316 | expand then flatten keeps the recurrence, has no name, and yields the empty start time when the text does not parse or parses to an instant at the zero moment, and the formatted parsed time otherwise |
| DataShareSchedule.UnparsableStartTimeFlattensToEmpty | vendor/github.com/terraform-providers/terraform-provider-azurerm/azurerm/internal/services/datashare/resource_arm_data_share.go:288-307 | an unparsable start time is not an error and comes back as the empty string |
| DataShareSchedule.StartTimeSurvives | vendor/github.com/terraform-providers/terraform-provider-azurerm/azurerm/internal/services/datashare/resource_arm_data_share.go:288-307 | a start time that parses to a non-zero time and formats back to the same text survives expand then flatten unchanged |

## Left out

- The create, read, update and delete handlers of both resources: remote calls, polling of long-running operations, the sync-setting iterator, and writes to Terraform state with `d.Set` and `d.SetId`.
- The Terraform schemas, timeouts and library validators such as `validation.IntAtLeast` and `validation.StringInSlice`. Only their effect on inputs is used, as the `-1` lower bound in `ConfigRoundTrip`.
- The other files of the repository: the generated Recovery Services vaults client, the Spring Cloud app and Event Grid domain topic handlers, and the Event Hub and Log Analytics ID parsers. They are I/O, remote calls, or thin wrappers over helpers whose code is not part of this model.
- `validation.StringMatch`, the wrapper around the name pattern: its type check and its message text. Only the pattern's predicate is modelled.
- `parse.IntegrationAccountID`: it is not part of this model and is a function parameter.
- RFC 3339 parsing, formatting and the zero test (`time.Parse`, `Time.Format`, `Time.IsZero`): a parameter record. The round-trip lemmas require only that the record's zero time is zero, as Go's `Time{}` is.
- The text of error messages built with `fmt.Errorf`. Errors are constructors that carry the attribute key and the parser's reason.
- Go type assertions on `interface{}` values, which panic on a wrong type. Typed datatypes make those cases impossible.
- The `keys` attribute and the `index` attribute are Terraform sets. Their hash ordering and the merging of duplicates are not modelled: both are sequences in the order `List()` returns.
- Results returned through pointers to slices are plain sequences, since no caller aliases them.
