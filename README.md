# AgentAchieve core, modelled in Dafny

AgentAchieve is a web application for real-estate agents. Agents keep clients, properties, sales and monthly sales goals in it, and sign in through an external identity provider. This project models the parts of it that carry logic of their own:

- **Sales goals** (`sales_goals.dfy`).
  - The goal month is normalised to the first of its month.
  - The duplicate check answers "does another goal exist for this owner and month?".
  - The invariant that check protects is at most one goal per owner and month.
- **External login** (`identity.dfy`).
  - The three-way decision of the identity service, together with the calls it makes on the user and sign-in managers.
  - The `FullName` getter of the application-user DTO.
- **Audit stamping** (`audit.dfy`). The save interceptor's loop stamps creation or modification data on the tracked entries.
- **Repository and unit of work** (`persistence.dfy`).
  - The generic repository stages inserts, updates and deletes in an Entity Framework change tracker.
  - The unit of work caches one repository per entity type, commits, and disposes once.
- **Validation rules and formatting**:
  - `properties.dfy`, `clients.dfy`, `sales.dfy` and the `SalesGoalDto` class hold the data annotations of the DTOs and entities, written as predicates.
  - The one-line renderings: `FullAddress` and `FullNameAndPhone`.
  - The `PropertyType` and `SaleType` enums as stored integers.

Supporting modules:
- `wrappers.dfy`: `Option` and `Result`.
- `text.dfy`: the .NET string functions the code calls (`IsNullOrWhiteSpace`, `Join`, UTF-16 `Length`, null in interpolation).
- `annotations.dfy`:
  - C#'s `decimal`, held exactly as a whole number of 10^-28.
  - `[Required]`, `[MaxLength]`, `[Range]`, and the `[Precision]` column types.
- `calendar.dfy`: `DateTime`, `Date` and the first of a month.

Inputs that come from outside the code become parameters:
- the current user id;
- the clock (`DateTime.Now`, `DateTime.Today`);
- the outcomes of the ASP.NET Identity managers;
- the provider's email claim;
- the rows the database holds.

State the source changes in place is modelled as classes with `modifies` clauses:
- the DTO whose goal month the service overwrites;
- the context, repository and unit of work;
- the array of change-tracker entries.

## Model

| member | source | states |
|---|---|---|
| SalesGoals.NormalizeGoalMonth | AgentAchieve/AgentAchieve.Infrastructure/Features/SalesGoals/SalesGoalService.cs:48-52 | An absent month stays absent. A present one becomes a date in the same year and month, on day 1 at midnight, and a valid date stays valid. |
| SalesGoals.NormalizeGoalMonthIdempotent | AgentAchieve/AgentAchieve.Infrastructure/Features/SalesGoals/SalesGoalService.cs:64-68 | Normalising an already normalised month changes nothing. |
| SalesGoals.CreateSalesGoal | AgentAchieve/AgentAchieve.Infrastructure/Features/SalesGoals/SalesGoalService.cs:46-52 | Only the DTO's goal month changes, and it becomes the normalised month. |
| SalesGoals.UpdateSalesGoal | AgentAchieve/AgentAchieve.Infrastructure/Features/SalesGoals/SalesGoalService.cs:62-68 | The same in-place normalisation on the update path. |
| SalesGoals.DoesGoalExist | AgentAchieve/AgentAchieve.Infrastructure/Features/SalesGoals/SalesGoalService.cs:93-111 | The filter-then-`Any` query answers exactly `GoalExists`. That is true when the month is absent. Otherwise it is true iff a stored goal has the same owner and is dated, at day granularity, the first of that month, the DTO's own id being skipped when it is non-zero. |
| SalesGoals.SalesGoalDto.Valid | AgentAchieve/AgentAchieve.Infrastructure/Features/SalesGoals/SalesGoalDto.cs:25-43 | The DTO's annotations: owner, month and amount required, the owner non-blank, the amount in [1, 9999999999999999.99]. |
| SalesGoals.GoalExists | AgentAchieve/AgentAchieve.Infrastructure/Features/SalesGoals/SalesGoalService.cs:96-110 | The answer the duplicate check is to give: true with no month; else true iff some stored goal clashes (same owner, dated the first of the month at day granularity, not the DTO's own non-zero id). |
| SalesGoals.Where | AgentAchieve/AgentAchieve.Infrastructure/Features/SalesGoals/SalesGoalService.cs:101-102 | The filtered sequence holds exactly the goals that pass the test. |
| SalesGoals.DayOfMonthIsIgnored | AgentAchieve/AgentAchieve.Infrastructure/Features/SalesGoals/SalesGoalService.cs:99 | Two dates in the same month get the same answer. |
| SalesGoals.OwnGoalIsExcluded | AgentAchieve/AgentAchieve.Infrastructure/Features/SalesGoals/SalesGoalService.cs:105-108 | A non-zero id answers as if the goal with that key were not stored. Id 0 excludes nothing. |
| SalesGoals.ServiceTestCases | AgentAchieve/AgentAchieve.Infrastructure.UnitTests/Services/SalesGoalServiceTests.cs:173-176 | The test cases over one stored goal (owner1, January 2022). Same owner and month gives true; another month or owner gives false; the goal's own id gives false. |
| SalesGoals.MidMonthGoalIsNotSeen | AgentAchieve/AgentAchieve.Infrastructure/Features/SalesGoals/SalesGoalService.cs:102 | The comparison is by whole day, so a goal stored mid-month is not seen. |
| SalesGoals.GuardedCreateKeepsUnique | AgentAchieve/AgentAchieve.Infrastructure/Data/Configurations/SalesGoalConfiguration.cs:19-20 | Inserting a normalised goal only when the check says no duplicate exists keeps the store normalised, with at most one goal per owner and month. |
| SalesGoals.GuardedUpdateKeepsUnique | AgentAchieve/AgentAchieve.Infrastructure/Data/Configurations/SalesGoalConfiguration.cs:19-20 | Writing a goal back when the check, which skips that goal, says no duplicate exists keeps at most one goal per owner and month. |
| SalesGoals.ClashMeansSameMonth | AgentAchieve/AgentAchieve.Infrastructure/Features/SalesGoals/SalesGoalService.cs:99-108 | For a stored first of month, matching the check's date iff same owner, same month and not the excluded id. |
| SalesGoals.Replace | AgentAchieve/AgentAchieve.Infrastructure/Features/SalesGoals/SalesGoalService.cs:70 | Writing one goal back keeps the number and order of stored goals: the goal with that key becomes the updated one, every other goal stays. |
| SalesGoals.SalesGoalDto.constructor | AgentAchieve/AgentAchieve.Infrastructure/Features/SalesGoals/SalesGoalDto.cs:20 | A new DTO has id 0 ("not yet stored") and no owner, month or amount. |
| SalesGoals.ValidGoalAmountFitsColumn | AgentAchieve/AgentAchieve.Infrastructure/Features/SalesGoals/SalesGoalDto.cs:39-43 | An amount that passes the required range [1, 9999999999999999.99] and has at most two decimals fits the `decimal(18, 2)` column. |
| Annotations.MoneyRangeIsColumnRange | AgentAchieve/AgentAchieve.Infrastructure/Features/Sales/SaleDto.cs:58-62 | For non-negative two-decimal amounts, fitting `decimal(18, 2)` iff being at most 9999999999999999.99. |
| Annotations.RequiredValue | AgentAchieve/AgentAchieve.Infrastructure/Features/Sales/SaleDto.cs:32-41 | `[Required]` on a nullable number, date or id: the value is present. |
| Annotations.RequiredString | AgentAchieve/AgentAchieve.Infrastructure/Features/Clients/ClientDto.cs:24-43 | `[Required]` on a string: present and holding a character that is not white space. |
| Annotations.MaxLength | AgentAchieve/AgentAchieve.Infrastructure/Features/Clients/ClientDto.cs:49-112 | `[MaxLength(n)]`: null passes; otherwise the UTF-16 length is at most n. |
| Annotations.IntRangeOnDecimal | AgentAchieve/AgentAchieve.Infrastructure/Features/Sales/SaleDto.cs:71 | `[Range(int, int)]` on a `decimal?`: null passes; otherwise the value rounded half to even lies within the bounds. |
| Annotations.DecimalRange | AgentAchieve/AgentAchieve.Core/Domain/Sale.cs:53 | `[Range]` with decimal or double bounds: null passes; otherwise lo <= value <= hi. |
| Annotations.FitsDecimal18x2 | AgentAchieve/AgentAchieve.Core/Domain/Sale.cs:46 | The `decimal(18, 2)` column holds the value exactly: at most two decimals and under 10^16 in magnitude. |
| Annotations.FitsDecimal5x4 | AgentAchieve/AgentAchieve.Core/Domain/Sale.cs:52 | The `decimal(5, 4)` column holds the value exactly: at most four decimals and under 10 in magnitude. |
| Annotations.RoundHalfEven | AgentAchieve/AgentAchieve.Infrastructure/Features/Sales/SaleDto.cs:71 | The int-bounded range first converts the rate to the nearest whole number, a tie going to the even neighbour. |
| Calendar.FirstOfMonthIsStartOfMonth | AgentAchieve/AgentAchieve.Infrastructure/Features/SalesGoals/SalesGoalService.cs:51 | `new DateTime(y, m, 1)` of a valid date is valid, in the same month, on day 1 at midnight, and is its own `Date`. |
| Calendar.FirstOfMonthIdentifiesMonth | AgentAchieve/AgentAchieve.Infrastructure/Features/SalesGoals/SalesGoalService.cs:99 | Two dates have the same first of month iff they are in the same month. |
| Calendar.FirstOfMonthIdempotent | AgentAchieve/AgentAchieve.Infrastructure/Features/SalesGoals/SalesGoalService.cs:67 | The first of the first of a month is itself; a first of month is its own. |
| Identity.ProcessExternalLogin | AgentAchieve/AgentAchieve.Infrastructure/Features/Identity/IdentityService.cs:62-71 | Success iff the first sign-in succeeds. NewAccountCreated iff it fails, an email is present and creation succeeds. Failure otherwise. Errors are empty unless the status is Failure. Every call concerns the user named by the email. A user is created iff sign-in failed and an email is present. Login linking and sign-in happen iff the status is NewAccountCreated. |
| Identity.CreateAndSignInNewAccount | AgentAchieve/AgentAchieve.Infrastructure/Features/Identity/IdentityService.cs:88-118 | No email: Failure with exactly "Error: No email returned from external provider." and no calls. Otherwise it creates a user whose UserName and Email are the email. On success it then links the login and signs in, in that order. On failure the errors are "Error: " before each description, in order and count. |
| Identity.ErrorMessages | AgentAchieve/AgentAchieve.Infrastructure/Features/Identity/IdentityService.cs:116 | One message per description, in order: "Error: " followed by the description. |
| Identity.ServiceTestCases | AgentAchieve/AgentAchieve.Infrastructure.UnitTests/Services/IdentityServiceTests.cs:21-109 | The service's four test scenarios give Success, NewAccountCreated, Failure and Failure with ["Error: Test Error"]. |
| Identity.FullName | AgentAchieve/AgentAchieve.Infrastructure/Features/Identity/ApplicationUserDto.cs:33-50 | Names that are null, empty or white space count as absent. Both present: "Last, First", copied verbatim. Only one: that one. Neither: the user name, possibly null. |
| Identity.FullNameTestCases | AgentAchieve/AgentAchieve.Infrastructure.UnitTests/Dtos/ApplicationUserDtoTests.cs:12-15 | The four cases give "Doe, John", "Doe", "John" and "jdoe". |
| Text.JoinPair | AgentAchieve/AgentAchieve.Infrastructure/Features/Identity/ApplicationUserDto.cs:48 | `string.Join` of two parts puts the separator between them. |
| Text.Utf16LengthAppend | AgentAchieve/AgentAchieve.Infrastructure/Features/Clients/ClientDto.cs:121 | The UTF-16 length of a concatenation is the sum of the lengths. |
| Text.Utf16Length | AgentAchieve/AgentAchieve.Infrastructure/Features/Clients/ClientDto.cs:49-112 | `string.Length`, the UTF-16 code-unit count the `[MaxLength]` checks read: at least the number of characters and at most twice it. |
| Audit.Stamp | AgentAchieve/AgentAchieve.Infrastructure/Data/Interceptors/AuditableEntityInterceptor.cs:38-49 | Added entries get Created = now and CreatedBy = user, keeping LastModified and LastModifiedBy. Modified entries get LastModified = now and LastModifiedBy = user, keeping Created and CreatedBy. Entries in any other state are unchanged. State, key and other fields never change. |
| Audit.RestampKeepsLast | AgentAchieve/AgentAchieve.Infrastructure/Data/Interceptors/AuditableEntityInterceptor.cs:38-49 | Stamping twice equals stamping once with the later clock value and user id. |
| Audit.UpdateEntities | AgentAchieve/AgentAchieve.Infrastructure/Data/Interceptors/AuditableEntityInterceptor.cs:30-51 | A null context changes nothing. Otherwise every entry becomes its stamp, with the clock value read for it and the one user id fetched before the loop. |
| Audit.SavingChanges | AgentAchieve/AgentAchieve.Infrastructure/Data/Interceptors/AuditableEntityInterceptor.cs:24-28 | The entries are stamped and the interception result is returned unchanged. |
| Persistence.Find | AgentAchieve/AgentAchieve.Infrastructure/Services/Repository.cs:34-37 | Null iff the key is neither tracked nor saved. Otherwise the tracked entity comes first, then the saved row. |
| Persistence.CanSave | AgentAchieve/AgentAchieve.Infrastructure/Services/UnitOfWork.cs:43 | The key conditions of a save: every staged insert is of a key with no row and every staged update or delete is of a key with a row. Breaking one makes the save fail; holding them is necessary, not sufficient. |
| Persistence.StageAdd | AgentAchieve/AgentAchieve.Infrastructure/Services/Repository.cs:55 | `AddAsync` tracks the entity as Added under its type and key; every other tracked key keeps its change. |
| Persistence.StageModify | AgentAchieve/AgentAchieve.Infrastructure/Services/Repository.cs:65-66 | `Attach` then `State = Modified` tracks the entity as Modified under its type and key; every other tracked key keeps its change. |
| Persistence.StageRemove | AgentAchieve/AgentAchieve.Infrastructure/Services/Repository.cs:73-80 | A key `Find` misses stages nothing. A staged insert is detached. Otherwise the found entity is staged for removal. Afterwards the key holds no pending insert or update. |
| Persistence.DbContext.constructor | AgentAchieve/AgentAchieve.Infrastructure/Services/UnitOfWork.cs:18-20 | Models the EF context the unit of work and repositories are given, not project code: it starts over the database's rows with nothing tracked and not disposed. |
| Persistence.DbContext.Dispose | AgentAchieve/AgentAchieve.Infrastructure/Services/Repository.cs:101 | Models EF's `DbContext.Dispose`, which `Repository` and `UnitOfWork` call: the context is disposed after any number of calls. |
| Persistence.Saved | AgentAchieve/AgentAchieve.Infrastructure/Services/UnitOfWork.cs:43 | After a save a key holds a row iff it held one or was staged, and was not staged for removal. Staged entities are written; other rows stay. |
| Persistence.DbContext.SaveChanges | AgentAchieve/AgentAchieve.Infrastructure/Services/UnitOfWork.cs:43 | All staged changes are written and the tracker is cleared iff the key conditions hold and the database accepts its other constraints (unique indexes, foreign keys, NOT NULL, the connection). Otherwise it fails and nothing changes. |
| Persistence.Repository.constructor | AgentAchieve/AgentAchieve.Infrastructure/Services/Repository.cs:23-27 | A repository over the given context and its entity type, not yet disposed. |
| Persistence.Repository.GetById | AgentAchieve/AgentAchieve.Infrastructure/Services/Repository.cs:34-37 | Returns `Find` on the repository's type and the key. |
| Persistence.Repository.GetAll | AgentAchieve/AgentAchieve.Infrastructure/Services/Repository.cs:43-46 | Exactly the saved entities of the repository's type, nothing only staged. |
| Persistence.Repository.Insert | AgentAchieve/AgentAchieve.Infrastructure/Services/Repository.cs:52-56 | Null fails with ArgumentNull and stages nothing. Otherwise it stages an insert. Only the tracker changes. |
| Persistence.Repository.Update | AgentAchieve/AgentAchieve.Infrastructure/Services/Repository.cs:62-67 | Null fails with ArgumentNull and stages nothing. Otherwise it stages the entity as Modified. Only the tracker changes. |
| Persistence.Repository.Delete | AgentAchieve/AgentAchieve.Infrastructure/Services/Repository.cs:73-80 | A key `Find` misses changes nothing. A staged insert is dropped. Anything else is staged for removal. |
| Persistence.Repository.DisposeCore | AgentAchieve/AgentAchieve.Infrastructure/Services/Repository.cs:94-106 | The first call, when disposing, disposes the context. Every call leaves the repository disposed, and later calls change nothing. |
| Persistence.Repository.Dispose | AgentAchieve/AgentAchieve.Infrastructure/Services/Repository.cs:87-91 | Disposing once disposes the context; again changes nothing. |
| Persistence.UnitOfWork.constructor | AgentAchieve/AgentAchieve.Infrastructure/Services/UnitOfWork.cs:18-23 | A unit of work over the given context with an empty repository cache, not yet disposed. |
| Persistence.UnitOfWork.GetRepository | AgentAchieve/AgentAchieve.Infrastructure/Services/UnitOfWork.cs:30-33 | A cached type returns the same repository and leaves the cache alone. A new type gets a fresh repository over the same context, added to the cache. |
| Persistence.UnitOfWork.Commit | AgentAchieve/AgentAchieve.Infrastructure/Services/UnitOfWork.cs:39-50 | One save of everything staged, under the same success condition. Its failure is passed on unchanged, with nothing written. |
| Persistence.UnitOfWork.DisposeCore | AgentAchieve/AgentAchieve.Infrastructure/Services/UnitOfWork.cs:67-88 | The first call, when disposing, disposes the context and every cached repository. After any call the flag is set; later calls change nothing. |
| Persistence.UnitOfWork.Dispose | AgentAchieve/AgentAchieve.Infrastructure/Services/UnitOfWork.cs:56-60 | Disposing once disposes everything; again changes nothing. |
| Persistence.InsertCommitFind | AgentAchieve/AgentAchieve.Infrastructure/Services/Repository.cs:52-56 | Insert of a new key, then a commit, then `GetById` returns the entity. |
| Persistence.InsertExistingFails | AgentAchieve/AgentAchieve.Infrastructure/Services/Repository.cs:55 | Inserting a key that is already saved makes the commit fail. |
| Persistence.UpdateCommitReplaces | AgentAchieve/AgentAchieve.Infrastructure/Services/Repository.cs:62-67 | Update of a saved entity, then a commit: `GetById` returns the updated entity. |
| Persistence.DeleteCommitNull | AgentAchieve/AgentAchieve.Infrastructure/Services/Repository.cs:73-80 | Delete of a key `GetById` finds, then a commit: `GetById` returns null. |
| Persistence.DeleteMissingIsNoOp | AgentAchieve/AgentAchieve.Infrastructure/Services/Repository.cs:76 | Deleting a key nothing holds stages nothing. |
| Persistence.StagingKeepsOtherKeys | AgentAchieve/AgentAchieve.Infrastructure/Services/UnitOfWork.cs:32 | Staging under one key leaves what a commit writes under every other key unchanged, so repositories of different types do not interfere. |
| Persistence.EmptyCommitKeepsRows | AgentAchieve/AgentAchieve.Infrastructure/Services/UnitOfWork.cs:43 | A commit with nothing staged succeeds and writes nothing. |
| Properties.PropertyTypeRoundTrip | AgentAchieve/AgentAchieve.Core/Domain/Property.cs:10-26 | The five types survive storage as integers 0-4, and those integers name exactly them. |
| Properties.PropertyTypeToInt | AgentAchieve/AgentAchieve.Core/Domain/Property.cs:10-26 | The integer a property type is stored as lies in [0, 4]. |
| Properties.PropertyTypeFromInt | AgentAchieve/AgentAchieve.Core/Domain/Property.cs:10-26 | An integer names a declared property type iff it lies in [0, 4]. |
| Properties.NonNegativeRangeIsSign | AgentAchieve/AgentAchieve.Infrastructure/Features/Properties/PropertyDto.cs:91 | On an `int`, the range [0, int.MaxValue] means "absent or not negative". |
| Properties.NewProperty | AgentAchieve/AgentAchieve.Core/Domain/Property.cs:31-56 | The constructor sets the four address parts to its arguments. The key is 0 and every detail is null, which the detail rules accept. |
| Properties.ToProperty | AgentAchieve/AgentAchieve.Infrastructure/Features/Properties/PropertyDto.cs:126-131 | The mapping keeps the key, the street, city, state and ZIP code, and every detail. |
| Properties.DetailsValid | AgentAchieve/AgentAchieve.Infrastructure/Features/Properties/PropertyDto.cs:56-105 | Country at most 50 code units; bedrooms and both bathroom counts in [1, 99]; levels in [1, 9]; square footage and lot size in [0, int.MaxValue]; each may be null. |
| Properties.PropertyValid | AgentAchieve/AgentAchieve.Core/Domain/Property.cs:37-102 | The entity's annotations: street, city, state and ZIP code at most 100, 50, 2 and 10 code units, and the detail rules. |
| Properties.PropertyDtoValid | AgentAchieve/AgentAchieve.Infrastructure/Features/Properties/PropertyDto.cs:24-105 | The DTO's annotations: the four address parts required and within the entity's lengths, and the detail rules. |
| Properties.PropertyFullAddress | AgentAchieve/AgentAchieve.Core/Domain/Property.cs:115 | The entity's `FullAddress`: "Street City, State Zip". |
| Properties.DtoFullAddress | AgentAchieve/AgentAchieve.Infrastructure/Features/Properties/PropertyDto.cs:121 | The DTO's `FullAddress`, a null part rendering as nothing. |
| Properties.ValidDtoMapsToValidProperty | AgentAchieve/AgentAchieve.Core/Domain/Property.cs:37-102 | A DTO that passes its annotations maps to a property that passes the entity's, with the same `FullAddress`. |
| Properties.FullAddressTestCase | AgentAchieve/AgentAchieve.Infrastructure.UnitTests/Dtos/PropertyDtoTests.cs:33 | "123 Main St", "Anytown", "NY", "12345" give "123 Main St Anytown, NY 12345". |
| Properties.ValidAddressLineLength | AgentAchieve/AgentAchieve.Infrastructure/Features/Properties/PropertyDto.cs:121 | A valid DTO's address line is at most 166 UTF-16 code units. |
| Clients.NewClientDto | AgentAchieve/AgentAchieve.Infrastructure/Features/Clients/ClientDto.cs:24-118 | A DTO with key 0, the three required values set and all eleven other fields null. |
| Clients.ClientDtoValid | AgentAchieve/AgentAchieve.Infrastructure/Features/Clients/ClientDto.cs:24-112 | First name, last name and phone required and at most 100, 100 and 15 code units; email 256; street 100, city 50, state 2, ZIP 10, country 50; occupation 50; employer and referrer 100. |
| Clients.FullNameAndPhone | AgentAchieve/AgentAchieve.Infrastructure/Features/Clients/ClientDto.cs:121 | "Last, First; Phone: Number", a null part rendering as nothing. |
| Clients.NewClientDtoValid | AgentAchieve/AgentAchieve.Infrastructure/Features/Clients/ClientDto.cs:24-118 | The three required values with text and within 100, 100 and 15 code units make a valid DTO; every other field may be absent. |
| Clients.FullNameAndPhoneTestCase | AgentAchieve/AgentAchieve.Infrastructure.UnitTests/Dtos/ClientDtoTests.cs:33 | John Doe with phone 1234567890 gives "Doe, John; Phone: 1234567890". |
| Clients.ValidFullNameAndPhoneLength | AgentAchieve/AgentAchieve.Infrastructure/Features/Clients/ClientDto.cs:121 | A valid DTO's name-and-phone line is at most 226 UTF-16 code units. |
| Sales.SaleTypeRoundTrip | AgentAchieve/AgentAchieve.Core/Domain/Sale.cs:10-16 | Buyer and Seller survive storage as 0 and 1, and those integers name exactly them. |
| Sales.NewSale | AgentAchieve/AgentAchieve.Core/Domain/Sale.cs:21 | The owner is the constructor's argument. Every other property keeps its default: key, property id and client id 0, closing date `DateTime.MinValue` (a valid date), sale type Buyer, price and rate 0. |
| Sales.SaleTypeToInt | AgentAchieve/AgentAchieve.Core/Domain/Sale.cs:10-16 | The integer a sale type is stored as lies in [0, 1]. |
| Sales.SaleTypeFromInt | AgentAchieve/AgentAchieve.Core/Domain/Sale.cs:10-16 | An integer names a declared sale type iff it lies in [0, 1]. |
| Sales.NewSaleIsValid | AgentAchieve/AgentAchieve.Core/Domain/Sale.cs:46-54 | A new sale meets the entity's price and rate rules. |
| Sales.NewSaleDto | AgentAchieve/AgentAchieve.Infrastructure/Features/Sales/SaleDto.cs:47-53 | A new DTO closes today, is a Buyer sale and has no required value set. |
| Sales.CommissionRateAsWrittenAdmitsTen | AgentAchieve/AgentAchieve.Infrastructure/Features/Sales/SaleDto.cs:68-72 | A rate of 10 passes the DTO's range as written, yet does not fit `decimal(5, 4)` and breaks the entity's [0, 1]. |
| Sales.CommissionRateAsWrittenAdmitsRounded | AgentAchieve/AgentAchieve.Infrastructure/Features/Sales/SaleDto.cs:71 | The int-bounded range also admits -0.5 and 100.5, which round to 0 and 100. |
| Sales.ToSale | AgentAchieve/AgentAchieve.Infrastructure/Features/Sales/SaleDto.cs:84-90 | The mapping keeps the key, owner, property, client, type, closing date, price and rate. |
| Sales.SaleValid | AgentAchieve/AgentAchieve.Core/Domain/Sale.cs:46-54 | The entity's rules: the price fits `decimal(18, 2)`; the rate fits `decimal(5, 4)` and lies in [0, 1]. |
| Sales.SaleDtoFieldsValid | AgentAchieve/AgentAchieve.Infrastructure/Features/Sales/SaleDto.cs:25-68 | Owner, property, client, price and rate required; the price in [0, 9999999999999999.99]. |
| Sales.SaleDtoValidAsWritten | AgentAchieve/AgentAchieve.Infrastructure/Features/Sales/SaleDto.cs:25-71 | The DTO's validator as declared: the field rules, and the rate through `[Range(0, 100)]` after rounding to a whole number. |
| Sales.CommissionRateInRangeAsWritten | AgentAchieve/AgentAchieve.Infrastructure/Features/Sales/SaleDto.cs:71 | The declared rate rule: null passes; otherwise the rate rounded half to even lies in [0, 100]. |
| Sales.SaleDtoValid | AgentAchieve/AgentAchieve.Core/Domain/Sale.cs:53 | Not the DTO's declared validator: the field rules with the rate held to the entity's [0, 1] instead of `[Range(0, 100)]`. It is the corrected rule of the finding below. |
| Sales.CorrectedRuleNarrowsDeclared | AgentAchieve/AgentAchieve.Infrastructure/Features/Sales/SaleDto.cs:71 | Every DTO the corrected rule accepts, the declared rule accepts too. |
| Sales.AsWrittenValidDtoMapsToInvalidSale | AgentAchieve/AgentAchieve.Core/Domain/Sale.cs:52-54 | A DTO with a rate of 10 passes the declared validator, yet maps to a sale the entity's rules reject. |
| Sales.ValidDtoMapsToValidSale | AgentAchieve/AgentAchieve.Core/Domain/Sale.cs:46-54 | With the rate held to [0, 1], a valid DTO whose amounts have no more decimals than their columns maps to a sale that meets the entity's rules. |

## Left out

- Async, `Task` and logging are not modelled. The commit's log line before rethrowing is dropped; the failure itself is kept.
- `SaveChangesFailedAsync` returns a completed task and does nothing, so there is nothing to model.
- The interceptor is not wired into `SaveChanges`, because registering it is configuration.
  - `Audit.UpdateEntities` takes the tracked entries as an array.
  - Entries of entities that do not derive from `BaseAuditableEntity<int>` are not in that array.
- `Audit.UpdateEntities`: `DateTime.Now` becomes a function of the entry's position.
  - The clock is read once per stamped entry, so no claim is made that stamps are equal.
  - Entries the switch skips do not read the clock in the source; the model still indexes the clock by position.
- `Persistence`: Entity Framework's identity map is not modelled.
  - Attaching a second instance with a tracked key throws in EF; here the new staged change replaces the old one.
  - `Find` starts tracking the entity it loads; here loaded entities are not tracked, since an Unchanged entry writes nothing.
  - Operations on a disposed context throw in EF; the repository and unit of work never check their flags, and the model does not check the context's either.
- `Persistence.UnitOfWork.GetRepository`: the `ConcurrentDictionary`'s thread safety is not modelled; the cache is a sequential map.
- `Persistence`: keys are supplied by the caller, as in the repository's tests. Keys generated by the database on insert are not modelled.
- The service-base `InsertDtoAsync`/`UpdateDtoAsync` that the goal service delegates to, and AutoMapper's projections, are not part of this model.
  - `SalesGoals.CreateSalesGoal` and `SalesGoals.UpdateSalesGoal` stop at the normalisation.
- `Properties.ToProperty` and `Sales.ToSale` require every mapped DTO value to be present.
  - For a null string (the address parts, the owner) AutoMapper copies the null through. The model has no null in a non-nullable string.
  - For a null `int?` or `decimal?` mapped to `int` or `decimal` (property id, client id, sale price, commission rate) AutoMapper yields 0. The model does not map that case.
- The sales-goal figures (total sales, variance, percent to goal), `ApplicationUser.FullName` and the commented-out commission amount are not part of this model.
- `[Precision]` is not a validation rule, and the model does not treat it as one.
  - It is the column type, stated as `FitsDecimal18x2` and `FitsDecimal5x4`.
  - The DTOs accept amounts with more decimals, which the database rounds on save; that rounding is not modelled.
- `Annotations.IntRangeOnDecimal`: for a value outside the `int` range, `Convert.ToInt32` throws out of the validator. The model reports the value as invalid instead.
- `Annotations.DecimalRange`: the entity's `[Range(0.0000, 1.0000)]` converts the rate to `double` before comparing. The model compares exactly, which differs only for rates within about 10^-16 of a bound.
- `Annotations.Decimal`: the 96-bit mantissa limit of `decimal` is not modelled. Values are unbounded multiples of 10^-28.
- `Text.IsWhiteSpace` follows the Unicode white-space set of `char.IsWhiteSpace`. Culture-specific behaviour is not modelled.
- The identity collaborators (`ExternalLoginSignInAsync`, `CreateAsync`, `AddLoginAsync`, `SignInAsync`) are inputs or recorded calls.
  - The results of `AddLoginAsync` and `SignInAsync` are ignored by the service, and so they are not inputs.
- UI components, migrations, the EF configuration classes, and the pass-through client, property, sale and appointment services are not part of this model.
- `Persistence.CanSave` and `Persistence.DbContext.SaveChanges`: only key conflicts are modelled in detail. The goal table's unique index on owner and month (`SalesGoalConfiguration.cs:19-20`), foreign keys, NOT NULL columns and connection errors can also make a save fail. `SaveChanges` and `UnitOfWork.Commit` take that verdict as the parameter `storeAccepts` and do not compute it. The commit lemmas (`InsertCommitFind` and the rest) speak of the key conditions and the rows written, not of those constraints.
- `SalesGoals.GoalExists` compares owner ids exactly, as the in-memory provider does. On SQL Server, which production uses (`AgentAchieve/AgentAchieve.Infrastructure/DependencyInjection.cs:51`), the default collation makes the owner comparison ignore case and trailing spaces. That comparison is not modelled.
- `Properties.PropertyTypeRoundTrip` and `Sales.SaleTypeRoundTrip`: C# enums are open, so `(PropertyType)7` or `(SaleType)9` are legal values. The `PropertyType` and `SaleType` datatypes hold only the declared names, and the round-trip lemmas speak only of those.

## Findings

| source | as written | input that shows it | evidently intended | confidence | as-written member | corrected member |
|---|---|---|---|---|---|---|
| AgentAchieve/AgentAchieve.Infrastructure/Features/Sales/SaleDto.cs:70-71 | The commission rate is validated with `[Range(0, 100)]`, a percentage, with `int` bounds, so the rate is rounded to a whole number first. The column is `decimal(5, 4)`, at most 9.9999, and the entity (`Sale.cs:52-54`) declares the fraction range [0, 1]. | A rate of 10 (or 100.5, or -0.5) passes the DTO's validation. It then breaks the entity's range, and 10 does not fit the column. | The rate is a fraction in [0, 1], checked exactly, as on the entity | medium, not executed | Sales.AsWrittenValidDtoMapsToInvalidSale | Sales.ValidDtoMapsToValidSale |
