# Save&Serve rules in Dafny

Save&Serve is a web application where food donors list surplus food and
charitable organizations (shelters, food banks, community centres, NGOs)
find and claim it. Its server side is a hosted document database. The
logic the application owns sits in a few places:

- the wrappers in `src/lib/api/organizations.ts` and
  `src/lib/api/donations.ts`, which decide what to write and what to
  filter;
- the helpers in `src/lib/utils.ts`;
- the three-step registration wizard in `src/app/register/page.tsx`.

This project models that logic with the database removed. A wrapper that
reads receives the records the database returned, already decoded as
values of the record types of `src/lib/types.ts`, in the database's
order. A wrapper that writes acts on `Database.Store`, a small in-memory
store. The store keeps the donation and organization collections as maps
from id to record. An update merges attributes into a stored record, and
fails on an unknown id.

Modules, one per source file, plus the JavaScript semantics the code uses:

- `Wrappers`: `Option`.
- `Js`: the JavaScript facts the code depends on:
  - the white-space class `\s`;
  - `length` counted in UTF-16 code units;
  - decimal rendering in template literals;
  - `parseInt` with no radix.
- `Seqs`: `Array.prototype.filter` as `Filter`. Its lemmas cover
  membership, order (the kept positions increase), composition and
  counting. Also `forEach` accumulation as `Sum`/`SumReal`, and sortedness
  by a key.
- `Types`: the records and enumerations of `src/lib/types.ts`. It also
  has the partial documents that `updateDocument` merges, `Object.assign`
  on them, and JavaScript truthiness of optional strings and numbers.
- `Organizations`:
  - the `canHandleDonation` decision chain;
  - the service-area filter;
  - the document `createOrganization` builds;
  - the attribute selection of `updateOrganization`;
  - the impact-stats increment;
  - `getOrganizationStats`.
- `Donations`:
  - the document `createDonation` builds;
  - the status query and client-side filters of `getDonations`;
  - the claim and status-update attributes;
  - `getNearbyDonations` with the distance function as a parameter, sorted
    in place by an insertion sort on an array;
  - `getDonationStats`.
- `Database`: the `Store` class whose methods are the writing wrappers.
- `Utils`:
  - the pickup-window check and the countdown text;
  - the e-mail and phone validators, written as character scanners, each
    proved to accept exactly the language of its regular expression;
  - the notification icons.
- `Register`: the wizard as a class, `RegisterPage`, with the page's
  `step`, `error` and `formData` state. Its methods are the event
  handlers. The validators are pure functions.

The model follows the code as written, in three places where one might
expect something else:

- The "area" filter of `getVerifiedOrganizationsInArea` compares each
  organization's own service area with the requested radius. It never
  uses the coordinates it is given.
- `claimDonation` overwrites any earlier claim, whatever the status
  (`Donations.SecondClaimOverwrites`).
- Step 2 of the wizard tests capacity only for being non-zero, so a
  typed negative number passes (`Register.NegativeCapacityPassesStepTwo`).

Times are integer milliseconds and the current time is a parameter
(`now`). Fresh document ids and uploaded file ids are parameters too.

## Model

| member | source | states |
|---|---|---|
| `Organizations.CanHandleDonation` | src/lib/api/organizations.ts:383-403 | false for an unverified organization; false for a verified one when portions exceed capacity (equal passes); otherwise true exactly when some offered food type is accepted |
| `Organizations.NoFoodTypesNoMatch` | src/lib/api/organizations.ts:400-403 | an empty food-type list, or a missing accepted list, never matches |
| `Organizations.CanHandleMonotone` | src/lib/api/organizations.ts:391-403 | fewer portions or more offered food types never turn an acceptance into a rejection |
| `Organizations.CapacityScenario` | src/lib/api/organizations.ts:391-397 | a 50-portion cooked donation is refused by a 40-capacity organization and accepted by a 60-capacity one that takes cooked food |
| `Organizations.VerifiedOrganizationsInArea` | src/lib/api/organizations.ts:218-241 | the result holds exactly the verified organizations whose service area is at least the radius (50 km by default), and no more of them than the input |
| `Organizations.VerifiedOrganizationsInAreaOrder` | src/lib/api/organizations.ts:239-241 | the result keeps input order: each result element sits at a strictly increasing input position |
| `Organizations.OrEmpty` | src/lib/api/organizations.ts:33-37 | an absent optional string becomes the empty string; a present one is kept |
| `Organizations.NewOrganization` | src/lib/api/organizations.ts:29-47 | a new organization is pending with all impact counters at zero; its service area is 10 km when 0 was given (so never 0); the empty string for a missing registration number and vehicle info; the other fields copied from the form |
| `Organizations.NewOrganizationNotMatchable` | src/lib/api/organizations.ts:36-45 | a new organization handles no donation and appears in no area query until it is verified |
| `Organizations.OrganizationUpdateData` | src/lib/api/organizations.ts:130-139 | each of the seven editable fields is sent exactly when its value is truthy, so capacity 0 or an empty name is never sent; owner, verification, documents, stats and creation time are never sent |
| `Organizations.IncrementedStats` | src/lib/api/organizations.ts:271-276 | one more pickup, `mealsRescued` more meals and `weightKg` more kilograms |
| `Organizations.TotalsAfterPickup` | src/lib/api/organizations.ts:271-276 | recording a pickup for one organization raises the platform-wide totals by one pickup, its meals and its weight |
| `Organizations.TotalsWithNewOrganization` | src/lib/api/organizations.ts:41-45 | adding a new organization leaves the platform-wide totals unchanged |
| `Organizations.FindOrganization` | src/lib/api/organizations.ts:328-332 | the document with the requested id when one exists, otherwise none |
| `Organizations.GetOrganizationStats` | src/lib/api/organizations.ts:322-356 | the three counts are the collection size and the numbers of verified and pending organizations; without an id the totals are the sums over all organizations, with an id those of that organization, and failure when the id is unknown |
| `Donations.NewDonation` | src/lib/api/donations.ts:28-47 | a new donation is available with no claim or completion; special instructions become empty when absent; the other fields come from the form, images and clock |
| `Donations.NewDonationListed` | src/lib/api/donations.ts:44 | a new donation shows in the default listing |
| `Donations.StatusQuery` | src/lib/api/donations.ts:79-84 | the listing asks for the given statuses when that list is non-empty, otherwise for `available` alone |
| `Donations.GetDonations` | src/lib/api/donations.ts:72-118 | the result is the collection filtered in order by the status query, the food-type overlap (skipped for an empty or absent list) and the portion bounds (a falsy bound imposes nothing); it contains exactly the donations passing every active test |
| `Donations.ClaimedDonation` | src/lib/api/donations.ts:184-195 | status claimed, claimant and claim time set whatever the previous status; every other field unchanged |
| `Donations.SecondClaimOverwrites` | src/lib/api/donations.ts:186-194 | a second claim replaces the first claimant |
| `Donations.StatusUpdateData` | src/lib/api/donations.ts:219-227 | the requested status, with `completedAt` set to the current time only for `picked_up`; `additionalData` overrides both, and its other attributes are written as given |
| `Types.ApplyAssign` | src/lib/api/donations.ts:225-227 | merging an `Object.assign`ed patch equals merging the base patch and then the extra one |
| `Donations.GetNearbyDonations` | src/lib/api/donations.ts:293-326 | exactly the available donations within the radius (25 km by default) of the caller under the given distance function, each as often as in the input, in non-decreasing distance |
| `Donations.SortByDistance` | src/lib/api/donations.ts:320-326 | the array ends sorted by distance and is a permutation of what it held |
| `Donations.GetDonationStats` | src/lib/api/donations.ts:368-400 | totals over the donor's donations (or all of them): their number, the sum of portions, the sum of weights and the number available |
| `Donations.StatsWithNewDonation` | src/lib/api/donations.ts:382-400 | a new donation adds its portions and weight to the totals and one active listing |
| `Donations.StatsAfterClaim` | src/lib/api/donations.ts:382-400 | claiming an available donation removes one active listing and leaves the totals unchanged |
| `Database.Store.CanHandleDonation` | src/lib/api/organizations.ts:369-403 | failure for an unknown organization id, otherwise the decision on the stored organization; a yes implies it is verified and has room |
| `Database.Store.CreateDonation` | src/lib/api/donations.ts:19-60 | stores the new donation under its fresh id; nothing else changes |
| `Database.Store.ClaimDonation` | src/lib/api/donations.ts:184-207 | failure and no change for an unknown id; otherwise the stored donation becomes the claimed one and nothing else changes |
| `Database.Store.UpdateDonationStatus` | src/lib/api/donations.ts:213-234 | failure and no change for an unknown id; otherwise the status and completion time as the update data say, every other field merged from `additionalData` |
| `Database.Store.CreateOrganization` | src/lib/api/organizations.ts:17-60 | stores the new organization under its fresh id; nothing else changes |
| `Database.Store.UpdateOrganization` | src/lib/api/organizations.ts:125-159 | failure and no change for an unknown id; otherwise truthy editable fields are written and owner, verification status, documents, impact counters and creation time stay as they were |
| `Database.Store.UpdateVerificationStatus` | src/lib/api/organizations.ts:164-187 | failure and no change for an unknown id; otherwise only the verification status changes |
| `Database.Store.UpdateImpactStats` | src/lib/api/organizations.ts:258-296 | failure and no change for an unknown id; otherwise only the impact counters change, by one pickup and the given meals and weight |
| `Utils.IsPickupTimeValid` | src/lib/utils.ts:118-124 | valid exactly when the window starts after now and lasts at least an hour, which implies it ends after it starts |
| `Utils.PickupWindowBoundary` | src/lib/utils.ts:123 | a window of exactly 3600000 ms is accepted and one of 3599999 ms refused |
| `Utils.DiffHours` | src/lib/utils.ts:133 | the whole hours in the difference |
| `Utils.DiffMinutes` | src/lib/utils.ts:134 | the minutes after the whole hours: at most 59, and hours and minutes together never exceed the difference |
| `Utils.TimeUntilPickup` | src/lib/utils.ts:126-146 | "Expired" exactly when the pickup time is past; otherwise, with d the milliseconds left: above 24 whole hours, "<floor(hours/24)> day" with "s" exactly when that is more than 1; from 1 to 24 whole hours, "<hours>h <leftover minutes>m"; under an hour, "<minutes>m"; a pickup due now shows "0m" |
| `Utils.Countdown` | src/lib/utils.ts:133-145 | the text for a pickup not yet past starts with a digit (so is never "Expired"), and is "0m" for a difference of 0 |
| `Utils.TimeUntilPickupDayBoundary` | src/lib/utils.ts:136-143 | exactly 24 hours shows "24h 0m"; 25 hours shows "1 day" and 48 hours "2 days" |
| `Utils.TimeUntilPickupPlural` | src/lib/utils.ts:136-139 | in the day branch the unit ends in "s" exactly when there is more than one day |
| `Utils.AllEmailChars` | src/lib/utils.ts:90 | accepts exactly the strings with no white space and no '@' |
| `Utils.HasInnerDot` | src/lib/utils.ts:90 | true exactly when a '.' has a character on each side |
| `Utils.IsValidEmail` | src/lib/utils.ts:89-92 | accepts exactly the strings with one '@', no white space, a non-empty local part and a domain with a '.' that has text on both sides |
| `Utils.EmailScanMatchesPattern` | src/lib/utils.ts:90 | the scan from the first '@' accepts exactly the language of the regular expression, in both directions |
| `Utils.AllPhoneChars` | src/lib/utils.ts:95 | accepts exactly the strings of digits, white space, '-', '(' and ')' |
| `Utils.IsValidPhone` | src/lib/utils.ts:94-97 | accepts exactly the strings of length at least 10 that, after an optional leading '+', are a non-empty run of digits, white space, '-', '(' and ')' |
| `Utils.PhoneScanMatchesPattern` | src/lib/utils.ts:95-96 | the length test and the scan accept exactly the language of the regular expression; the code-unit length equals the character count for accepted text |
| `Utils.PhoneTextLength` | src/lib/utils.ts:95 | text made of an optional leading '+' and phone-class characters has a code-unit length equal to its character count, so `phone.length` counts characters |
| `Utils.NotificationIcon` | src/lib/utils.ts:154-166 | the four known types get their fixed icons; the default icon is shown exactly for every other type |
| `Js.Utf16Length` | src/app/register/page.tsx:96 | the code-unit length lies between the character count and twice it |
| `Js.Utf16LengthOfBmp` | src/lib/utils.ts:96 | for text inside the Basic Multilingual Plane the code-unit length is the character count |
| `Js.NatToString` | src/lib/utils.ts:138-145 | a template literal renders a count as a non-empty run of digits with no leading zero |
| `Js.DecimalValueOfNatToString` | src/lib/utils.ts:138-145 | the rendered digits denote the count |
| `Js.ParseInt` | src/app/register/page.tsx:79 | `parseInt` with no radix: text that is blank, or whose first non-blank character is no digit and no sign, gives NaN; a negative result needs a leading '-'; exact values are stated by `Js.ParseIntOfNatToString`, `Js.ParseIntOfNumeralPrefix` and `Js.ParseIntOfNegative` |
| `Js.ParseIntOfNatToString` | src/app/register/page.tsx:79 | `parseInt` of a rendered non-negative integer gives the integer back |
| `Js.ParseIntOfNumeralPrefix` | src/app/register/page.tsx:79 | `parseInt` stops at the first non-digit after a numeral, unless a lone "0" is followed by 'x' |
| `Js.ParseIntOfNegative` | src/app/register/page.tsx:79 | a leading '-' negates the numeral |
| `Register.InitialForm` | src/app/register/page.tsx:54-73 | an empty form at the origin: empty name, e-mail, passwords and phone, and no organization name, type, registration number, capacity or service area; role donor, switched to organization exactly for `type=organization` |
| `Register.Step1Error` | src/app/register/page.tsx:85-102 | "Please fill in all required fields" exactly when one of the four fields is empty; then "Passwords do not match" exactly on a mismatch; then the length message exactly for fewer than 8 code units; no error exactly when all four are filled, the passwords agree and are at least 8 units long |
| `Register.Step2Error` | src/app/register/page.tsx:104-112 | donors always pass; an organization fails, with the details message, exactly when its name, type or capacity is falsy |
| `Register.ParsedNumber` | src/app/register/page.tsx:79 | the integer `parseInt` finds, or 0 when it finds none |
| `Register.WithInput` | src/app/register/page.tsx:75-83 | capacity and service area store the parsed number (0 for none) and change no other field; other inputs leave both numbers alone; no input changes role or location |
| `Register.WithText` | src/app/register/page.tsx:80-82 | each text input stores its text verbatim in the field it names and changes no other field; an unknown name changes nothing |
| `Register.NumberInputRoundTrip` | src/app/register/page.tsx:75-83 | typing a non-negative number into the capacity or the service-area field stores that number |
| `Register.NumberInputNumeralPrefix` | src/app/register/page.tsx:78-79 | text with a leading numeral stores the numeral's value in either number field |
| `Register.NegativeCapacityPassesStepTwo` | src/app/register/page.tsx:104-112 | a typed negative capacity is stored as that negative number and passes step 2 |
| `Register.NonNumericCapacityRefused` | src/app/register/page.tsx:75-112 | capacity text with no number stores 0, which step 2 refuses for an organization |
| `Register.RegistrationOf` | src/app/register/page.tsx:135-142 | the submitted account data copies the form's fields; the location is passed exactly when its address is non-empty |
| `Register.RegisterPage.constructor` | src/app/register/page.tsx:48-73 | the page starts at step 1 with no error and the initial form |
| `Register.RegisterPage.HandleInputChange` | src/app/register/page.tsx:75-83 | the form takes the new input (parsed for the number fields); step and error are untouched |
| `Register.RegisterPage.SetAddress` | src/app/register/page.tsx:453-459 | only the location's address changes |
| `Register.RegisterPage.SelectRole` | src/app/register/page.tsx:305-325 | only the role changes |
| `Register.RegisterPage.ValidateStep1` | src/app/register/page.tsx:85-102 | passes exactly when step 1 has no error, and otherwise reports that error; step and form untouched |
| `Register.RegisterPage.ValidateStep2` | src/app/register/page.tsx:104-112 | passes exactly when step 2 has no error, and otherwise reports that error; step and form untouched |
| `Register.RegisterPage.NextStep` | src/app/register/page.tsx:114-121 | clears the error; moves 1 to 2 only when step 1 validates and 2 to 3 only when step 2 validates, otherwise shows the failure; step 3 stays; the step stays within 1..3 |
| `Register.RegisterPage.PrevStep` | src/app/register/page.tsx:123-126 | from step 2 or 3, goes one step back and clears the error |
| `Register.RegisterPage.HandleSubmit` | src/app/register/page.tsx:128-150 | submits exactly when both validators pass, and then clears the error; otherwise reports the first failure (step 2 is checked only when step 1 passes); step and form untouched |

## Left out

- Every call to the hosted backend is left out: document reads, writes and listings, file uploads and deletes, and authentication. The model takes the fetched records as input, or acts on `Database.Store`.
- The backend's ordering (`orderDesc('createdAt')`) and its `limit`s of 50, 100 and 1000 are left out. A listing is the whole collection in the order the backend returned it.
- The `createdAt` range filters of `getDonations` (`startTime`, `endTime`) are left out. They are ISO-date comparisons made by the backend.
- `JSON.stringify` and `JSON.parse` of composite attributes are left out. Records are held decoded.
- The haversine `calculateDistance` is left out because it uses floating-point trigonometry. `getNearbyDonations` takes the distance function as a parameter.
- `calculateCO2Savings`, `calculateMealsFromWeight`, the number and date formatters, `cn`, `generateId` and the `storage` helper are left out. They are floating-point arithmetic, formatting, randomness or local storage. The `co2Saved` field of `getDonationStats` is left out for the same reason.
- `Date` parsing is left out. Times are integer milliseconds, and an unparsable date (NaN) is not modelled.
- `ID.unique()` and the clock are not modelled. The fresh id and the current time are parameters.
- The two `Promise.all` calls are modelled as sequential reads of one collection.
- `Donations.GetDonationStats`: the `|| 0` guards on portions and weight are not modelled. Both fields are required in the record type, so no document lacks them.
- `Donations.SortByDistance`: proved sorted and a permutation, but not stable. `Array.prototype.sort` is stable since ECMAScript 2019, so the source keeps donations at equal distance in the backend's order; the contract does not state that.
- `Organizations.OrganizationUpdateData`: `organizationType` and `preferences` are copied whenever present. An enumeration value and an object are always truthy.
- `Database.Store.UpdateDonationStatus`: `additionalData` attributes outside the donation record (an unknown key) are not modelled, because a partial donation document has only the record's fields.
- `Database.Store.CanHandleDonation`: the id lookup models the backend's "document not found" failure. Other backend failures are not modelled.
- `Js.ParseInt`: integers are exact at any size. JavaScript's loss of precision above 2^53 and the result -0 are not modelled.
- JavaScript numbers are IEEE-754 doubles; the model uses exact integers for portions, meals, capacities and counters and exact reals for weights and radii. The rounding of the weight sums in `getDonationStats` (src/lib/api/donations.ts:388), `getOrganizationStats` (src/lib/api/organizations.ts:343) and `updateImpactStats` (src/lib/api/organizations.ts:275) is therefore not captured, nor any loss of integer precision above 2^53.
- Registration: these parts of `src/app/register/page.tsx` are not modelled:
  - the `loading` flag;
  - the call into the authentication context;
  - navigation after sign-up;
  - the error message of a failed sign-up;
  - the password-visibility toggles;
  - browser geolocation;
  - all rendering.
- `Register.WithInput`: a name that is not a field of the form is ignored. JavaScript would add it as an extra, unused property.
- The registration number and the available days and hours of organization preferences are carried but never checked, as in the code.
- Behaviour the code does not have is not stated:
  - mutual exclusion between competing claims;
  - a status check before a claim;
  - idempotent pickup recording;
  - ranking of matches;
  - a distance test in the organization area query.
- `src/contexts/AuthContext.tsx`, the static pages, the dashboard, `src/lib/appwrite.ts`, `src/lib/database-schema.ts` and `next.config.js` are not part of this model.
