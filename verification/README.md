# Fixed-asset period ends and opportunity-to-client conversion, in Dafny

This project models two pieces of the Axelor Open Suite ERP.

**Fixed-asset dates (`axelor-account`).** The fixed-asset date service computes
`computeLastDayOfPeriodicity(periodicityType, date)`: the last day of the month
(monthly periodicity) or of the year (yearly periodicity) containing `date`. The
service is an interface whose doc comment is the only contract, so the model states
that promise as a specification (`IsLastDayOf`: a valid date of the enclosing period that no
valid date of the period comes after). It implements the promise on
`java.time.LocalDate` semantics: the proleptic Gregorian calendar of ISO 8601,
LocalDate's year range, its month lengths and its ordering (module `Calendar`).
It then proves that the two agree, together with bounds, maximality, idempotence,
monotonicity and a day-by-day reference computation. The function takes only the
periodicity and the date, so the result depends on nothing else. The stale
`@param fixedAsset` of the doc comment has no counterpart.

**Opportunity conversion (`axelor-crm`).** `createClientFromLead` fails with a
configuration error when the opportunity has no lead. When the lead has a primary
address, it composes address line 6 from the postal code and city; an absent part
contributes "" rather than the text "null". It builds an address only when the lead
has a primary address, and an email only when the lead has one. It then creates the partner with the same address in both
address positions and stores that partner on the opportunity. `setSequence` either
fails, when no sequence number is available, or stores the number. The address,
partner and sequence services are collaborators. They are modelled as the function
fields of a `Services` value. Their outputs are arbitrary, and the model states
what is passed to them and what is done with their results.

Files: `wrappers.dfy` (Option and Result), `calendar.dfy` (module `Calendar`),
`fixed_asset_date.dfy` (module `FixedAssetDate`), `opportunity.dfy` (module
`Opportunities`).

The doc comment promises only "the last day of the month/year"; `Periodicity` has
exactly two values and yearly periods end on December 31.

## Model

| member | source | states |
|---|---|---|
| Calendar.LeapYearExamples | axelor-account/src/main/java/com/axelor/apps/account/service/fixedasset/FixedAssetDateService.java:43 | the Gregorian leap-year rule of `LocalDate` on known years: 2000, 2024, 0, -4, -400 are leap years; 1900, 2023, -100 are not |
| Calendar.LeapYearCycle | axelor-account/src/main/java/com/axelor/apps/account/service/fixedasset/FixedAssetDateService.java:43 | the leap-year pattern repeats every 400 years, negative years included |
| Calendar.ValidDateExamples | axelor-account/src/main/java/com/axelor/apps/account/service/fixedasset/FixedAssetDateService.java:43 | date validity as `LocalDate.of` checks it: February 29 only in leap years, no April 31, months 1 to 12, days from 1, years within LocalDate's range |
| Calendar.LessEqIsTotalOrder | axelor-account/src/main/java/com/axelor/apps/account/service/fixedasset/FixedAssetDateService.java:43 | the date order of `LocalDate.compareTo` is reflexive, antisymmetric, transitive and total |
| Calendar.NextDay | axelor-account/src/main/java/com/axelor/apps/account/service/fixedasset/FixedAssetDateService.java:43 | the day after a date is strictly later, valid unless it leaves LocalDate's last year, and no valid date lies strictly between the two |
| Calendar.DaysInMonth | axelor-account/src/main/java/com/axelor/apps/account/service/fixedasset/FixedAssetDateService.java:43 | a month has 28 to 31 days; 28 or 29 exactly for February in a common or leap year; 30 exactly for April, June, September, November |
| Calendar.MonthLengthsSumToYearLength | axelor-account/src/main/java/com/axelor/apps/account/service/fixedasset/FixedAssetDateService.java:43 | the twelve month lengths add up to 366 in a Gregorian leap year and 365 otherwise |
| FixedAssetDate.LastDayOfPeriodicity | axelor-account/src/main/java/com/axelor/apps/account/service/fixedasset/FixedAssetDateService.java:37-43 | the result is a valid date of the same month (monthly) or year (yearly) as the input, every valid date of that period is on or before it, and it is never before the input |
| FixedAssetDate.MonthlyLastDay | axelor-account/src/main/java/com/axelor/apps/account/service/fixedasset/FixedAssetDateService.java:37-43 | monthly: same year and month as the input, day = length of that month, so February 29 in leap years and February 28 otherwise |
| FixedAssetDate.YearlyLastDay | axelor-account/src/main/java/com/axelor/apps/account/service/fixedasset/FixedAssetDateService.java:37-43 | yearly: the result is December 31 of the input's year |
| FixedAssetDate.PeriodEndExamples | axelor-account/src/main/java/com/axelor/apps/account/service/fixedasset/FixedAssetDateService.java:37-43 | worked cases: 2024-02-10 monthly gives 2024-02-29, 2023-02-10 gives 2023-02-28, 1900-02-01 gives 1900-02-28, 2023-06-15 gives 2023-06-30; 2024-01-10 yearly gives 2024-12-31 |
| FixedAssetDate.LastDayIsUnique | axelor-account/src/main/java/com/axelor/apps/account/service/fixedasset/FixedAssetDateService.java:37-43 | a date is the maximal valid date of the enclosing period if and only if it is the computed result |
| FixedAssetDate.Maximality | axelor-account/src/main/java/com/axelor/apps/account/service/fixedasset/FixedAssetDateService.java:37-43 | every valid date in the same month (monthly) or year (yearly) is on or before the result |
| FixedAssetDate.Idempotent | axelor-account/src/main/java/com/axelor/apps/account/service/fixedasset/FixedAssetDateService.java:37-43 | applying the computation to its own result with the same periodicity returns that result |
| FixedAssetDate.SameLastDayIffSamePeriod | axelor-account/src/main/java/com/axelor/apps/account/service/fixedasset/FixedAssetDateService.java:37-43 | two dates get the same period end exactly when they lie in the same period |
| FixedAssetDate.Monotone | axelor-account/src/main/java/com/axelor/apps/account/service/fixedasset/FixedAssetDateService.java:37-43 | a later input date never yields an earlier period end |
| FixedAssetDate.MonthEndsNoLaterThanYear | axelor-account/src/main/java/com/axelor/apps/account/service/fixedasset/FixedAssetDateService.java:37-43 | the monthly period end is in the same year as the input and on or before the yearly period end |
| FixedAssetDate.LastDayIsWhereThePeriodEnds | axelor-account/src/main/java/com/axelor/apps/account/service/fixedasset/FixedAssetDateService.java:37-43 | a date of the period is the result exactly when the following day lies outside the period |
| FixedAssetDate.LastDayByStepping | axelor-account/src/main/java/com/axelor/apps/account/service/fixedasset/FixedAssetDateService.java:37-43 | walking forward one day at a time from the input while the next day stays in the period ends on the computed result |
| Opportunities.AddressLine6 | axelor-crm/src/main/java/com/axelor/apps/crm/service/OpportunityServiceImpl.java:64-68 | with a postal code: the code, one space, then the city name or nothing; without one: the city name, or "" when the city is absent too |
| Opportunities.NullNotCreatedBySpace | axelor-crm/src/main/java/com/axelor/apps/crm/service/OpportunityServiceImpl.java:65-68 | joining two texts with a space creates no occurrence of "null" that neither text had |
| Opportunities.AddressLine6NeverPrintsNull | axelor-crm/src/main/java/com/axelor/apps/crm/service/OpportunityServiceImpl.java:65-68 | address line 6 contains "null" only if the postal code or the city name itself does; absent parts never print it |
| Opportunities.AddressRequestFor | axelor-crm/src/main/java/com/axelor/apps/crm/service/OpportunityServiceImpl.java:70-72 | the address is created from the primary address as line 4, the composed line 6 and the primary country, with lines 2, 3 and 5 empty |
| Opportunities.LeadAddress | axelor-crm/src/main/java/com/axelor/apps/crm/service/OpportunityServiceImpl.java:63-74 | an address exists exactly when the lead has a primary address, and it is the created address with its computed full name set |
| Opportunities.LeadEmail | axelor-crm/src/main/java/com/axelor/apps/crm/service/OpportunityServiceImpl.java:76-79 | an email exists exactly when the lead has one, and it carries the lead's address string |
| Opportunities.PartnerRequestFor | axelor-crm/src/main/java/com/axelor/apps/crm/service/OpportunityServiceImpl.java:81-92 | the partner gets the lead's name, phones and email, the opportunity's currency, no first name, and the same address in both address positions |
| Opportunities.CreateClientFromLead | axelor-crm/src/main/java/com/axelor/apps/crm/service/OpportunityServiceImpl.java:52-98 | fails with the missing-lead error exactly when there is no lead, with no partner and no opportunity to save; otherwise returns what the partner service returned, null included, and the opportunity with that value stored as its partner and nothing else changed |
| Opportunities.SetSequence | axelor-crm/src/main/java/com/axelor/apps/crm/service/OpportunityServiceImpl.java:101-112 | fails exactly when the sequence service yields no number, naming the company if any; otherwise only the opportunity number changes, to the obtained number |
| Opportunities.ConversionReadsNothingItWrites | axelor-crm/src/main/java/com/axelor/apps/crm/service/OpportunityServiceImpl.java:52-98 | the conversion keeps the lead, and converting the converted opportunity again sends the partner service the same request |
| Opportunities.SequenceAndConversionCommute | axelor-crm/src/main/java/com/axelor/apps/crm/service/OpportunityServiceImpl.java:94-111 | numbering and converting write different fields, so either order gives the same partner and the same final opportunity |

## Left out

- `computeFirstDepreciationDate` and the economic, fiscal and IFRS first-depreciation-date operations (FixedAssetDateService.java:25-35): the interface gives them no body and no behavioural contract beyond their names, so any prorata or anchor rule would be invented.
- The integer encoding of the periodicity type and any value other than monthly or yearly: the interface names neither, so `Periodicity` has exactly two values and no error path.
- A null periodicity type or null date passed to `computeLastDayOfPeriodicity` is not modelled. The date is a valid `LocalDate` by precondition because a `LocalDate` cannot hold anything else.
- `saveOpportunity` and the repository `save` call, `@Transactional` and its rollback: persistence plumbing. A successful conversion's opportunity is the record that is saved, and a failure carries no record.
- `Beans.get` lookups and the implementations of `AddressService.createAddress`, `AddressService.computeFullName`, `PartnerService.createPartner` and `SequenceService.getSequenceNumber`: external code, modelled as arbitrary functions in `Services`; `computeFullName` and `createPartner` may return null (`None`). The sequence kind `SequenceRepository.OPPORTUNITY` is fixed inside `opportunitySequence`.
- The collaborators are modelled as deterministic functions of their arguments. In Java, `createAddress` and `createPartner` make a new record on every call and `getSequenceNumber` advances the sequence, so two calls with equal arguments give different results; the model promises nothing about repeated calls beyond equal arguments.
- LeadEmail: object identity is not modelled, so the new email built from the lead's address string equals the lead's own email as a value; the model cannot tell it apart from passing the lead's email object on.
- Exception categories and internationalised message texts: each operation has a single error outcome. The missing-sequence error keeps the null-safe company name argument.
- `City` names are modelled as non-null strings. The definition of the `City` entity, including whether its name may be null, lies outside this model; a null name would be appended by Java's `+=` as the text "null".
- The address service's `createAddress` is modelled as always returning an address; a null return, on which Java would raise a `NullPointerException` at `setFullName`, is not modelled.
- A null opportunity argument, which would raise a `NullPointerException`, is not modelled.
