# Storefront core: rate limiting, cart, form validation and the Colombian location table

This project models the logic behind a small online shop for Colombian customers. It has five parts:

- **Rate limiter** (`RateLimit`, `rate_limiter.dfy`). It is a keyed attempt counter for the order and contact forms.
  - `canAttempt` answers whether a submission may proceed and how many attempts remain, or after how many seconds to retry. On the way it may clear an expired record or write a lockout.
  - `recordAttempt` counts one more attempt in the current window, or opens a new window.
  - Two instances exist: orders allow 3 attempts per hour, contact messages 5 per hour.
  - The user-facing message states the wait in minutes, or in hours when it is an hour or more.
  - The limiter is a class holding the one record stored under its key. Its methods are proved against the transition functions `CheckAttempt` and `RecordAttemptStep`.
- **Cart store** (`Cart`, `cart_store.dfy`). It holds the list of cart items and the open/closed state of the cart panel.
  - Adding a product already in the cart adds one unit. Adding a new product appends it with quantity 1.
  - Removing filters the product out.
  - Setting a quantity of zero or less removes the item.
  - The totals are sums over the items.
  - The store is a class whose methods are proved against the list functions `Added`, `Removed` and `QuantityUpdated`. Lemmas relate those functions to the totals and to the cart invariant: ids are distinct and quantities are positive.
- **Validations** (`Validations`, `validations.dfy`).
  - Colombian mobile numbers: `+57` followed by ten digits whose first three are a listed operator code.
  - Display formatting (`+57 XXX XXX XXXX`) and normalisation (`+57XXXXXXXXXX`).
  - The e-mail pattern, and the Colombian-domain check.
  - The two form schemas. They are modelled as the set of fields they report an error for.
- **Department table** (`Departamentos`, `departamentos.dfy`). It holds the 33 departments (32 plus Bogotá D.C.) with their main cities, as literal data.
  - Case-insensitive lookups give the cities of a department, whether a department exists, and whether a city belongs to a department.
- **Selection state** (`DepartmentSelection`, `department_selection.dfy`). This is the state behind the checkout's department and city pickers.
  - It holds the selected department and city. The city list is derived from the department.
  - Selecting a department clears the city.

`text.dfy` (`Text`) holds the string helpers the above share: ASCII digits, lower-casing, prefix and suffix tests, and decimal rendering and parsing of integers. `wrappers.dfy` (`Wrappers`) holds `Option`.

Assumptions shared by the model:

- **Clock.** Time is the parameter `now` in epoch milliseconds.
- **Stored record.** The browser's storage is reduced to the record read back under the limiter's key. It is `None` when nothing is stored or the text cannot be parsed. The read fails open.
- **Strings.** A string is a sequence of Unicode code points (Dafny `char`s). JavaScript's `.length`, and with it Zod's `.min`/`.max`, counts UTF-16 code units instead; the model measures those lengths with `Text.Utf16Length`, which counts two units for a character above the Basic Multilingual Plane.

## Model

| member | source | states |
|---|---|---|
| RateLimit.CeilDiv | src/utils/rate-limiter.ts:43 | `Math.ceil(x / d)` is the least q with x <= q*d |
| RateLimit.CheckAttempt | src/utils/rate-limiter.ts:31-75 | allowed exactly under `AllowedAt`; the only writes are a deletion on the way to "allowed" and a lockout of `now + windowMs` on the way to "refused"; after a deletion remaining = max - 1; a refusal waits at least one second |
| RateLimit.RecordAttemptStep | src/utils/rate-limiter.ts:80-107 | with no record or an expired window, a fresh record (1, now, no lockout); otherwise the same record with count + 1 and the lockout field kept |
| RateLimit.RateLimiter.CanAttempt | src/utils/rate-limiter.ts:31-75 | the verdict and the new stored record are those of `CheckAttempt` on the old record; a consistent record stays consistent |
| RateLimit.RateLimiter.RecordAttempt | src/utils/rate-limiter.ts:80-107 | the stored record becomes `RecordAttemptStep` of the old one; a consistent record stays consistent |
| RateLimit.RateLimiter.ClearRecord | src/utils/rate-limiter.ts:112-118 | nothing is stored afterwards |
| RateLimit.RateLimiter.GetRecord | src/utils/rate-limiter.ts:123-132 | returns the stored record, absent when unreadable |
| RateLimit.RateLimiter.SetRecord | src/utils/rate-limiter.ts:137-143 | the stored record is replaced whole |
| RateLimit.RateLimiter.constructor | src/utils/rate-limiter.ts:24-26 | keeps the configuration; existing storage is untouched |
| RateLimit.NoRecordAllows | src/utils/rate-limiter.ts:36-38 | no record: allowed with max - 1 remaining, storage unchanged |
| RateLimit.ActiveLockoutRefuses | src/utils/rate-limiter.ts:41-45 | a running lockout refuses with retryAfter the seconds to its end rounded up, at least 1, storage unchanged |
| RateLimit.ExpiredLockoutResets | src/utils/rate-limiter.ts:46-48 | an ended lockout deletes the record and allows with max - 1 remaining, before the window is looked at |
| RateLimit.ExpiredWindowResets | src/utils/rate-limiter.ts:52-56 | an expired window deletes the record and allows with max - 1 remaining |
| RateLimit.FullWindowLocksOut | src/utils/rate-limiter.ts:59-71 | a full window stores a lockout until now + windowMs and refuses for ceil(windowMs/1000) s |
| RateLimit.OpenWindowAllows | src/utils/rate-limiter.ts:59-74 | otherwise allowed with max - count remaining, storage unchanged |
| RateLimit.ZeroLockoutIgnored | src/utils/rate-limiter.ts:41 | a stored lockout of 0 is falsy and acts as no lockout |
| RateLimit.RecordIgnoresLimit | src/utils/rate-limiter.ts:80-107 | `recordAttempt` does not depend on maxAttempts |
| RateLimit.RecordDropsActiveLockout | src/utils/rate-limiter.ts:93-99 | recording after the window ran out drops a lockout that is still running, and the next check allows |
| RateLimit.CheckAttemptKeepsConsistent | src/utils/rate-limiter.ts:31-75 | positive counts, and lockouts only on full windows, are preserved by `canAttempt` |
| RateLimit.RecordAttemptKeepsConsistent | src/utils/rate-limiter.ts:80-107 | the same invariant is preserved by `recordAttempt` |
| RateLimit.RefusedOnlyAfterLimit | src/utils/rate-limiter.ts:41-71 | on a consistent record, a refusal means at least maxAttempts attempts were recorded |
| RateLimit.PedidosFourthRefused | src/utils/rate-limiter.ts:149-153 | the order limiter (3 per hour): after three orders within the hour a fourth is refused for 3600 seconds |
| RateLimit.ContactoFifthAllowed | src/utils/rate-limiter.ts:159-163 | the contact limiter (5 per hour): after four messages within the hour a fifth is allowed, with one left |
| RateLimit.ContactoSixthRefused | src/utils/rate-limiter.ts:159-163 | the contact limiter: after five messages within the hour a sixth is refused for 3600 seconds |
| RateLimit.RecordAllCounts | src/utils/rate-limiter.ts:102-106 | n attempts inside a window add n to the count and keep the window start and lockout |
| RateLimit.FreshStartCounts | src/utils/rate-limiter.ts:84-106 | n attempts from a fresh start within one window leave the record (n, first instant, no lockout) |
| RateLimit.LockoutAfterMaxAttempts | src/utils/rate-limiter.ts:59-71 | maxAttempts recorded attempts in one window make the next check refuse and store the lockout |
| RateLimit.NoPrematureLockout | src/utils/rate-limiter.ts:59-74 | fewer than maxAttempts attempts in one window are allowed, with max - n remaining |
| RateLimit.WindowReset | src/utils/rate-limiter.ts:52-56 | an attempt followed by more than a window of silence is forgotten |
| RateLimit.ShownWait | src/utils/rate-limiter.ts:169-177 | minutes rounded up while under 60, else hours rounded up; each bounds retryAfter from both sides |
| RateLimit.WaitPhrase | src/utils/rate-limiter.ts:173 | the phrase ends in "s" exactly when the amount exceeds 1 |
| RateLimit.FormatearMensajeRateLimit | src/utils/rate-limiter.ts:169-178 | fixed opening and closing text; the phrase between them reads back as exactly the shown wait |
| RateLimit.WaitPhraseRoundTrip | src/utils/rate-limiter.ts:173-177 | amount, unit and plural are recovered from the phrase |
| RateLimit.MessageExamples | src/utils/rate-limiter.ts:169-178 | 90 s reads "2 minutos", 60 s "1 minuto", 7200 s "2 horas" |
| Cart.CountId | src/store/cartStore.ts:34 | zero exactly when no item carries the id |
| Cart.TotalItems | src/store/cartStore.ts:108-110 | at least the number of items when every quantity is positive |
| Cart.TotalPrice | src/store/cartStore.ts:115-120 | non-negative for non-negative prices and quantities |
| Cart.QuantityOf | src/store/cartStore.ts:108-110 | zero for an absent id |
| Cart.TotalItemsAppend | src/store/cartStore.ts:108-110 | the item total of a concatenation is the sum of the totals |
| Cart.TotalPriceAppend | src/store/cartStore.ts:115-120 | the price total of a concatenation is the sum of the totals |
| Cart.Added | src/store/cartStore.ts:32-50 | a new product is appended with quantity 1; an existing one keeps its place and every item with its id gains one unit; the product is present afterwards |
| Cart.Removed | src/store/cartStore.ts:55-59 | exactly the items with another id remain; the length drops by the number removed |
| Cart.QuantityUpdated | src/store/cartStore.ts:64-75 | quantity <= 0 removes; otherwise the same items in place with that quantity on the id's items |
| Cart.IncrementedTotals | src/store/cartStore.ts:36-43 | the increment adds one unit and one unit price per matching item |
| Cart.AddExistingTotals | src/store/cartStore.ts:36-43 | adding a present product adds 1 item and the stored unit price |
| Cart.AddNewTotals | src/store/cartStore.ts:46-48 | adding a new product adds 1 item and its price |
| Cart.SoleItem | src/store/cartStore.ts:34 | in a consistent cart one item carries the id, with its quantity |
| Cart.SoleItemPrice | src/store/cartStore.ts:115-120 | that item's unit price and line price |
| Cart.NoIdSums | src/store/cartStore.ts:115-120 | an absent id contributes no price |
| Cart.RemovedTotals | src/store/cartStore.ts:55-59 | removing subtracts the id's quantity and price from the totals |
| Cart.RemoveAbsentIsNoOp | src/store/cartStore.ts:55-59 | removing an absent id changes nothing |
| Cart.WithQuantityTotalItems | src/store/cartStore.ts:70-74 | setting a quantity replaces the id's quantity in the item total |
| Cart.UpdateQuantityTotal | src/store/cartStore.ts:64-75 | in a consistent cart, the total changes by new - old quantity |
| Cart.UpdateAbsentIsNoOp | src/store/cartStore.ts:64-75 | updating an absent id never inserts it |
| Cart.AddedKeepsInvariant | src/store/cartStore.ts:32-50 | distinct ids and positive quantities are preserved by adding |
| Cart.RemovedKeepsInvariant | src/store/cartStore.ts:55-59 | the same invariant is preserved by removing |
| Cart.RemovedAppend | src/store/cartStore.ts:57 | the filter keeps the order of a concatenation |
| Cart.QuantityUpdatedKeepsInvariant | src/store/cartStore.ts:64-75 | the same invariant is preserved by updating |
| Cart.CartStore.constructor | src/store/cartStore.ts:26-27 | an empty, closed cart |
| Cart.CartStore.AddItem | src/store/cartStore.ts:32-50 | the items become `Added` of the old ones; the panel state is untouched; the invariant is kept |
| Cart.CartStore.RemoveItem | src/store/cartStore.ts:55-59 | the items become `Removed` of the old ones; the invariant is kept |
| Cart.CartStore.UpdateQuantity | src/store/cartStore.ts:64-75 | the items become `QuantityUpdated` of the old ones; the invariant is kept |
| Cart.CartStore.ClearCart | src/store/cartStore.ts:80-82 | no items; the panel state is untouched |
| Cart.CartStore.ToggleCart | src/store/cartStore.ts:87-89 | the panel state flips; the items are untouched |
| Cart.CartStore.OpenCart | src/store/cartStore.ts:94-96 | the panel is open; the items are untouched |
| Cart.CartStore.CloseCart | src/store/cartStore.ts:101-103 | the panel is closed; the items are untouched |
| Cart.CartStore.GetTotalItems | src/store/cartStore.ts:108-110 | zero for an empty cart, at least the number of items in a consistent one |
| Cart.CartStore.GetTotalPrice | src/store/cartStore.ts:115-120 | zero for an empty cart |
| Departamentos.FindFrom | src/data/colombia-departamentos.ts:375-377 | the first entry whose lower-cased name equals the lower-cased query, or none when no entry matches |
| Departamentos.CiudadesEn | src/data/colombia-departamentos.ts:374-379 | no cities when no name matches; otherwise the cities of the first match |
| Departamentos.TableFacts | src/data/colombia-departamentos.ts:7-369 | 33 entries, each with at least one city |
| Departamentos.TableSlotOfEntry | src/data/colombia-departamentos.ts:7-369 | each entry's lower-cased name identifies its own position |
| Departamentos.NamesDistinct | src/data/colombia-departamentos.ts:7-369 | no two department names are equal ignoring case |
| Departamentos.FirstMatchIsOnlyMatch | src/data/colombia-departamentos.ts:374-379 | since names are distinct, the entry a name matches is the first one it matches |
| Departamentos.GetCiudadesPorDepartamento | src/data/colombia-departamentos.ts:374-379 | a name matching an entry ignoring case yields exactly that entry's cities; a name matching none yields no cities |
| Departamentos.EsDepartamentoValido | src/data/colombia-departamentos.ts:384-388 | a department is valid exactly when its city list is non-empty |
| Departamentos.EsCiudadValidaEnDepartamento | src/data/colombia-departamentos.ts:393-399 | a city is valid only in a valid department, and there exactly when the matching entry lists it, ignoring case |
| Departamentos.FindFromIgnoresCase | src/data/colombia-departamentos.ts:375-377 | queries equal ignoring case find the same entry |
| Departamentos.LookupsIgnoreCase | src/data/colombia-departamentos.ts:374-399 | all three lookups give the same answers for case variants |
| Departamentos.LookupsOfLowered | src/data/colombia-departamentos.ts:374-399 | all three lookups agree on a query and its lower-cased form |
| Departamentos.UnknownDepartment | src/data/colombia-departamentos.ts:374-388 | a name that matches no entry is invalid and has no cities |
| Departamentos.MedellinInAntioquia | src/data/colombia-departamentos.ts:13-15 | Medellín is a city of Antioquia |
| Departamentos.CaliInValleDelCaucaAnyCase | src/data/colombia-departamentos.ts:347-349 | "cali" is valid in "VALLE DEL CAUCA" |
| Departamentos.MedellinNotInCundinamarca | src/data/colombia-departamentos.ts:175-191 | Cundinamarca is valid but does not list Medellín |
| Departamentos.VillanuevaInCasanare | src/data/colombia-departamentos.ts:116-120 | Villanueva is valid in Casanare |
| Departamentos.VillanuevaInLaGuajira | src/data/colombia-departamentos.ts:212-219 | the same name is also valid in La Guajira |
| Departamentos.InvalidDepartmentExample | src/data/colombia-departamentos.ts:374-399 | an unknown department is invalid, has no cities and accepts no city |
| DepartmentSelection.ColombiaDepartments.constructor | src/hooks/useColombiaDepartments.ts:26-27 | nothing is selected |
| DepartmentSelection.ColombiaDepartments.DepartamentosDisponibles | src/hooks/useColombiaDepartments.ts:32 | all 33 departments |
| DepartmentSelection.ColombiaDepartments.Ciudades | src/hooks/useColombiaDepartments.ts:37-42 | no cities without a selection, else the table's cities for the selected department |
| DepartmentSelection.ColombiaDepartments.SeleccionarDepartamento | src/hooks/useColombiaDepartments.ts:47-50 | the department is selected, the city cleared, and the cities are the department's |
| DepartmentSelection.ColombiaDepartments.SeleccionarCiudad | src/hooks/useColombiaDepartments.ts:55-57 | only the city changes; the department and the city list stay |
| DepartmentSelection.ColombiaDepartments.LimpiarSeleccion | src/hooks/useColombiaDepartments.ts:62-65 | both selections cleared, no cities |
| DepartmentSelection.ColombiaDepartments.ValidarDepartamento | src/hooks/useColombiaDepartments.ts:70-72 | true exactly when the department has cities |
| DepartmentSelection.ColombiaDepartments.ValidarCiudad | src/hooks/useColombiaDepartments.ts:77-79 | true exactly when the department's list holds the city ignoring case; implies a valid department |
| DepartmentSelection.AntioquiaCities | src/hooks/useColombiaDepartments.ts:41 | Antioquia's list is its table entry's and holds Medellín |
| DepartmentSelection.CundinamarcaCities | src/hooks/useColombiaDepartments.ts:41 | Cundinamarca's list is its table entry's and holds Soacha |
| DepartmentSelection.BogotaValid | src/hooks/useColombiaDepartments.ts:70-72 | Bogotá D.C. is a valid department |
| Validations.Clean | src/utils/validations.ts:37 | the result keeps only digits and `+`, is no longer than the input, and leaves such input unchanged |
| Validations.CleanAppend | src/utils/validations.ts:37 | cleaning distributes over concatenation |
| Validations.NormalizarTelefono | src/utils/validations.ts:56-66 | the cleaned number, prefixed with `+57` exactly when it is ten characters that do not start with `+57` |
| Validations.NormalizarIdempotent | src/utils/validations.ts:56-66 | normalising twice equals normalising once |
| Validations.ValidarTelefonoColombia | src/utils/validations.ts:18-30 | an accepted phone has 13 characters, starts `+573` and holds only digits and `+` |
| Validations.ValidPhoneShape | src/utils/validations.ts:8-30 | every listed operator code starts with 3, so the pattern and a listed code give that shape |
| Validations.ValidPhoneIsNormal | src/utils/validations.ts:18-66 | a valid phone is its own normal form |
| Validations.Grouped | src/utils/validations.ts:41 | 16 characters starting with "+57 " |
| Validations.FormatearTelefono | src/utils/validations.ts:35-51 | a number whose normal form is `+57` and ten more characters is shown as those ten grouped, and cleaning the display gives the normal form back; any other input is shown unchanged |
| Validations.CleanAroundSpace | src/utils/validations.ts:37 | cleaning drops a space between two parts |
| Validations.CleanGrouped | src/utils/validations.ts:37-47 | cleaning the grouped form gives `+57` and the ten digits |
| Validations.NormalizeFormatted | src/utils/validations.ts:35-66 | formatting never changes what a number normalises to |
| Validations.FormatIdempotent | src/utils/validations.ts:35-51 | formatting twice equals formatting once |
| Validations.FormatValidPhone | src/utils/validations.ts:18-51 | a valid phone formats to its grouped digits and normalises back from that form |
| Validations.ValidPhoneFromParts | src/utils/validations.ts:8-30 | `+57`, ten digits and a listed operator code make a valid phone |
| Validations.ValidPhoneExample300 | src/utils/validations.ts:8-30 | +573001234567 is valid |
| Validations.ValidPhoneExample310 | src/utils/validations.ts:8-30 | +573101234567 is valid |
| Validations.ValidPhoneExample350 | src/utils/validations.ts:8-30 | +573501234567 is valid |
| Validations.MalformedPhoneExamples | src/utils/validations.ts:18-24 | no prefix, 9 digits and 11 digits are rejected |
| Validations.UnlistedOperatorRejected | src/utils/validations.ts:27-29 | a number whose operator code is not listed is rejected |
| Validations.UnknownOperatorExamples | src/utils/validations.ts:27-29 | operator codes 399 and 200 are rejected |
| Validations.NationalNumber | src/utils/validations.ts:40-41 | a ten-digit national number normalises to `+57` plus the number and formats to its grouped form |
| Validations.AllDigitsAppend | src/utils/validations.ts:20 | the concatenation of two digit strings is a digit string |
| Validations.NormalizeSpaced | src/utils/validations.ts:56-66 | ten digits typed as three space-separated groups normalise to `+57` plus the digits |
| Validations.NormalizeDisplayed | src/utils/validations.ts:56-66 | the display form of a national number normalises to `+57` plus the number |
| Validations.NormalizeSpacedExample | src/utils/validations.ts:56-66 | "300 123 4567" normalises to +573001234567 |
| Validations.NormalizeDisplayedExample | src/utils/validations.ts:56-66 | "+57 300 123 4567" normalises to +573001234567 |
| Validations.GroupedExample | src/utils/validations.ts:41 | 3001234567 is grouped as "+57 300 123 4567" |
| Validations.FormatNationalExample | src/utils/validations.ts:40-41 | "3001234567" formats to "+57 300 123 4567" |
| Validations.FormatInternationalExample | src/utils/validations.ts:45-47 | "+573001234567" formats to "+57 300 123 4567" |
| Validations.IndexOf | src/utils/validations.ts:72 | the first position of the character, or none when it does not occur |
| Validations.SplitDots | src/utils/validations.ts:72 | at least one label, none containing a dot |
| Validations.JoinSplit | src/utils/validations.ts:72 | joining the split labels with dots gives the domain back |
| Validations.SplitJoin | src/utils/validations.ts:72 | splitting dot-joined dot-free labels gives the labels back |
| Validations.ValidarEmail | src/utils/validations.ts:71-74 | an accepted address has a non-empty local part of allowed characters, an `@`, and a domain of valid labels |
| Validations.EmailIffSplit | src/utils/validations.ts:71-74 | accepted exactly when some `@` splits it into such a local part and domain |
| Validations.DomainChars | src/utils/validations.ts:72 | an accepted domain holds only letters, digits, hyphens and dots |
| Validations.ExactlyOneAt | src/utils/validations.ts:72 | an accepted address contains exactly one `@` |
| Validations.DomainFromLabels | src/utils/validations.ts:72 | labels of 1 to 63 letters, digits and inner hyphens joined by dots form an accepted domain |
| Validations.EmailFromParts | src/utils/validations.ts:71-74 | such a local part, `@` and such labels form an accepted address |
| Validations.EmailIntoParts | src/utils/validations.ts:71-74 | every accepted address decomposes that way |
| Validations.ValidEmailExamples | src/utils/validations.ts:71-74 | test@example.com and user.name@domain.co are accepted |
| Validations.InvalidEmailExamples | src/utils/validations.ts:71-74 | "invalid-email", "@example.com" and "test@" are rejected |
| Validations.SplitAtSign | src/utils/validations.ts:72 | cutting at an `@` and re-joining the domain's labels gives the address back |
| Validations.ListedSuffixesEndInCo | src/utils/validations.ts:80-81 | ending in one of the listed domains is the same as ending in ".co" |
| Validations.EsEmailColombiano | src/utils/validations.ts:79-82 | an address is Colombian exactly when, lower-cased, it ends in ".co" |
| Validations.ErroresPedido | src/utils/validations.ts:117-158 | only fields of the order form are ever reported |
| Validations.PedidoErrorsByField | src/utils/validations.ts:117-158 | each order field is reported exactly when its own rule fails: e-mail length 1–255 or `.email()`; phone validity; department validity; city length 1–100 or the city not belonging to the department; address length 10–500; notes over 1000 |
| Validations.EmptyDepartmentInvalid | src/utils/validations.ts:131-136 | the empty department is never valid |
| Validations.PedidoAccepted | src/utils/validations.ts:117-158 | no field is reported exactly when every rule of the order form holds |
| Validations.AcceptedOrderLocation | src/utils/validations.ts:152-158 | an accepted order names a valid department and one of its listed cities |
| Validations.ErroresContacto | src/utils/validations.ts:163-195 | only fields of the contact form are ever reported |
| Validations.ContactoErrorsByField | src/utils/validations.ts:163-195 | each contact field is reported exactly when its own rule fails: name length 3–100 or a character outside the name class; e-mail as for orders; a non-empty phone that is not valid; subject length 3–200; message length 10–2000 |
| Validations.ContactoAccepted | src/utils/validations.ts:163-195 | no field is reported exactly when every rule of the contact form holds |
| Validations.ValidPedidoExample | src/utils/validations.ts:117-158 | the sample order from Antioquia/Medellín is accepted with any valid phone, such as +573001234567 |
| Validations.InvalidPedidoExample | src/utils/validations.ts:117-158 | the bad sample order is rejected on e-mail, phone, department, city and address |
| Validations.ValidContactoExample | src/utils/validations.ts:163-195 | the sample message from "Juan Pérez" is accepted |
| Validations.InvalidContactoExample | src/utils/validations.ts:163-195 | the bad sample message is rejected on name, e-mail, subject and message |
| Text.Lower | src/data/colombia-departamentos.ts:376 | lower-casing keeps the length |
| Text.LowerIdempotent | src/data/colombia-departamentos.ts:376 | lower-casing twice equals lower-casing once |
| Text.LowerAppend | src/utils/validations.ts:81 | lower-casing distributes over concatenation |
| Text.EndsWithTransitive | src/utils/validations.ts:81 | a suffix of a suffix is a suffix |
| Text.NatToString | src/utils/rate-limiter.ts:173 | a non-empty digit string without leading zeros |
| Text.ParseNatToString | src/utils/rate-limiter.ts:173 | reading back a rendered natural number gives the number |
| Text.ParseInt | src/utils/rate-limiter.ts:173-177 | whatever text reads as a number is exactly that number's rendering (no sign on zero, no leading zeros) |
| Text.LeadingDigitPositive | src/utils/rate-limiter.ts:173 | a numeral with a non-zero first digit has a positive value |
| Text.NumeralParses | src/utils/rate-limiter.ts:173 | rendering the value of a numeral gives the numeral back |
| Text.IntToStringRoundTrip | src/utils/rate-limiter.ts:173-177 | reading back a rendered integer gives the integer |
| Text.NegativeRoundTrip | src/utils/rate-limiter.ts:173-177 | the same for a negative integer |
| Text.ParseNegative | src/utils/rate-limiter.ts:173-177 | a minus sign before a numeral other than "0" reads as the negated value |
| Text.Utf16Length | src/utils/validations.ts:117-195 | the length in UTF-16 units lies between the number of characters and twice it |
| Text.Utf16LengthOfBmp | src/utils/validations.ts:117-195 | it equals the number of characters exactly when none lies above the Basic Multilingual Plane |
| Text.AstralCountsTwice | src/utils/validations.ts:117-195 | a character above the Basic Multilingual Plane has length 2 |

## Left out

- Storage and JSON. The browser's key-value storage, `JSON.parse`/`JSON.stringify` and their exceptions are reduced to the record they yield. A failed read is `None`; a failed write or delete is not modelled, so every write takes effect.
- Concurrency. Two tabs sharing one stored record are not modelled. Each limiter and cart is a single object.
- Numbers. Counts, timestamps, prices and quantities are unbounded integers. Fractional values, `NaN` and floating-point rounding in `Math.ceil` are not modelled.
- RateLimit.CheckAttempt: a record whose count is missing or not a number is not modelled; the stored record always has integer fields.
- Cart persistence. The store's persistence middleware (only `items` is persisted, `isOpen` is not) and the React subscription mechanism are not modelled.
- Cart.CartStore.GetTotalPrice: only the empty-cart value is stated on the method; the sums are related to the operations by `Cart.RemovedTotals`, `Cart.AddExistingTotals` and `Cart.AddNewTotals`.
- Cart item fields. `CartItem` keeps the product and the quantity. Name, image and description are carried inside `Product` without being inspected.
- Validations.ValidarEmail: the pattern is modelled on ASCII letters and digits, and its label bound of 63 counts characters. Only ASCII characters can match, and for those characters and UTF-16 units coincide.
- Zod's own `.email()` check. It is a parameter `esEmail` of the schema functions, because its definition belongs to the Zod library.
- Validations.ErroresPedido: the error messages are not modelled, only the set of fields that get one. A field missing from the input object, or one of a non-string type, is not modelled; every field is a string.
- Validations.ErroresContacto: same as `ErroresPedido`. The name class is tested per character; JavaScript tests it per UTF-16 unit, which gives the same answer because no surrogate unit is in the class.
- `validarConSchema`, `formatearMoneda` and `formatearFecha`. They are wrappers around Zod's error list and `Intl` formatters, which are library code.
- Text.Lower: lower-cases the Latin-1 capitals, plus the four other characters whose lower case is Latin-1: `Ÿ` (U+0178), `ẞ` (U+1E9E), the Kelvin sign (U+212A, to `k`) and the Ångström sign (U+212B, to `å`). So `"\u212Aennedy"` matches Kennedy as it does in JavaScript. Every other character is left as it is. Those characters lower-case outside Latin-1 in JavaScript, and `İ` (U+0130) becomes two code points; either way the result equals no lowered table name, city or `.co` suffix, and an unchanged character does not either. So the lookups and the Colombian-domain test give JavaScript's answers, but `Lower` itself is not JavaScript's `toLowerCase` on such text.
- DepartmentSelection: React's memoisation and re-rendering are not modelled; `Ciudades` is recomputed from the fields on every read, which is what the memo guarantees.
