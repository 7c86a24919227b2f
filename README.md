# trashapp-backend core in Dafny

A Dafny model of the request-handling core of the trashapp backend. The backend is an Express and Mongoose service for booking waste pickups. The model covers:

- **Response envelope.** `utils/responseUtils.js` and `middleware/responseMiddleware.js` give every reply the shape `{data, message, status_code}` or `{error: {message, code, details}, status_code}`. The mapping of thrown errors onto that shape is modelled too.
- **Pagination and search.** `middleware/paginationMiddleware.js` turns `page`, `page_size` and `search` query strings into skip/limit values or a 400 reply. It also builds the search filter and the page metadata.
- **Pickup documents** (`models/Pickup.js`):
  - cost estimation;
  - the pre-save hook that recomputes the cost when its inputs change;
  - validation in schema order;
  - status updates;
  - the `toJSON` flattening of coordinates and driver.
- **Recurring schedules** (`models/RecurringPickupSchedule.js`):
  - the day-of-week and day-of-month validators;
  - the next pickup date, using date-fns `addWeeks`/`addMonths` on local calendar dates;
  - `toggleActive`.
- **Refresh tokens** (`models/RefreshToken.js`): seven-day lifetime, revocation, validity, and lookup of a valid token.
- **Auth handlers** (`controllers/authController.js`): register, login, logout, refresh, email verification, password reset and password change, over a user store and a token store.
- **Google sign-in** (`config/passport.js`): the configuration check, and the strategy's choice between the Google id, the email, or a new account.
- **Uploads** (`config/cloudinary.js`): the public id recovered from an image URL, the image-only file filter, and the upload limits.

Shared modules:

- `Wrappers` holds `Option` and `Result`.
- `Js` holds the JavaScript values and the JavaScript operations the code relies on:
  - truthiness, `||` defaults and `typeof 'object'`;
  - `Number#toString` for integers;
  - `parseInt`;
  - `Math.ceil` of a quotient.

How the model treats what the code cannot see:

- **Time.** The clock is a parameter `now`. Token lifetimes are in epoch milliseconds. Schedule dates are local civil dates.
- **Random text.** Token strings are chosen by the caller.
- **models/User.js.** It is not part of this model. The user behaviour the handlers call is a `UserModel` of parameters:
  - password comparison;
  - the lock check;
  - the login-attempt counters;
  - the token generators;
  - JWT signing;
  - the default role.
- **Stores.** A user's id is its position in the user store. Refresh tokens are filed under their text.
- **Mongoose.**
  - Records that Mongoose saves in place are classes.
  - `isModified` is an explicit set of modified paths.
  - A validation error lists `(path, message)` pairs in schema order.

## Model

| member | source | states |
|---|---|---|
| `ResponseUtils.CreateResponse` | utils/responseUtils.js:12-29 | envelope with data, message and status_code (default '200'); `pagination` key present exactly when the pagination argument is truthy |
| `ResponseUtils.SuccessResponse` | utils/responseUtils.js:38-44 | success envelope with status_code '200', message defaulting to 'Success', pagination only when truthy |
| `ResponseUtils.CreatedResponse` | utils/responseUtils.js:52-54 | envelope with exactly data/message/status_code, status_code '201', message defaulting to 'Created successfully' |
| `ResponseUtils.ErrorResponse` | utils/responseUtils.js:64-78 | error envelope with no `data`; code defaults to 'ERROR', details to `{}`, status_code to '400' |
| `ResponseUtils.ValidationErrorResponse` | utils/responseUtils.js:85-92 | 'Validation failed' / VALIDATION_ERROR / '422' carrying the given details |
| `ResponseUtils.NotFoundResponse` | utils/responseUtils.js:99-101 | '<resource> not found' (resource defaulting to 'Resource'), NOT_FOUND, empty details, '404' |
| `ResponseUtils.UnauthorizedResponse` | utils/responseUtils.js:108-110 | message defaulting to 'Unauthorized', code UNAUTHORIZED, status '401' |
| `ResponseUtils.ForbiddenResponse` | utils/responseUtils.js:117-119 | message defaulting to 'Forbidden', code FORBIDDEN, status '403' |
| `ResponseUtils.InternalErrorResponse` | utils/responseUtils.js:126-128 | message defaulting to 'Internal server error', code INTERNAL_ERROR, status '500' |
| `ResponseUtils.CreatePagination` | utils/responseUtils.js:137-145 | exactly current_page, count and total_pages, where total_pages is the least t with t·pageSize ≥ count |
| `ResponseUtils.CreatePaginatedData` | utils/responseUtils.js:153-158 | exactly the keys items and pagination holding the arguments |
| `Js.CeilDiv` | utils/responseUtils.js:138 | `Math.ceil(a / b)` is the least q with q·b ≥ a, and non-negative for a ≥ 0 |
| `Js.IntToString` | middleware/responseMiddleware.js:62 | `toString` of an integer: non-empty, all digits when non-negative, a leading '-' exactly for negatives |
| `Js.NatToString` | middleware/responseMiddleware.js:62 | decimal digits without leading zeros |
| `Js.TrimStart` | middleware/paginationMiddleware.js:19 | the leading white space parseInt skips: a suffix of the input not starting with white space |
| `Js.ParseInt` | middleware/paginationMiddleware.js:19-20 | `parseInt`: leading white space skipped, an optional sign, hex after "0x", digits up to the first non-digit; a blank text is NaN, and a negative result needs a leading minus |
| `Js.DigitPrefixLength` | middleware/paginationMiddleware.js:19 | the longest prefix made of digits of the radix, stopped by the first non-digit |
| `Js.ParseIntToString` | middleware/paginationMiddleware.js:19-20 | parseInt reads back every integer's decimal text |
| `Js.ParseNatToString` | middleware/paginationMiddleware.js:19-20 | parseInt reads back every natural number's decimal text |
| `ResponseMiddleware.WrapBody` | middleware/responseMiddleware.js:17-38 | an envelope passes unchanged; otherwise status ≥ 400 yields an error envelope from message/code/details with defaults, else a '200' success envelope around the body |
| `ResponseMiddleware.WrapIdempotent` | middleware/responseMiddleware.js:19-21 | wrapping a wrapped body again at the same status changes nothing, if and only if the body was not undefined below status 400 (`res.json()` with no body gives `{ data: undefined, ... }`, which is not recognised as an envelope) |
| `ResponseMiddleware.WrappedPassesThrough` | middleware/responseMiddleware.js:19-21 | a wrapped body passes any later wrap unchanged, whatever the status, except an undefined body below 400 |
| `ResponseMiddleware.Response.Status` | middleware/responseMiddleware.js:46-106 | `res.status(code)`: sets the transport status and sends nothing |
| `ResponseMiddleware.Response.Json` | middleware/responseMiddleware.js:17-38 | sends the wrapped body and leaves the status alone |
| `ResponseMiddleware.Response.Success` | middleware/responseMiddleware.js:41-44 | sends the success envelope; unchanged by the wrap when data is defined |
| `ResponseMiddleware.Response.CreatedAsWritten` | middleware/responseMiddleware.js:46-50 | status 201, but the envelope carries status_code '200' and disagrees with it |
| `ResponseMiddleware.Response.Created` | middleware/responseMiddleware.js:46-50 | status 201 with a '201' envelope that agrees with it |
| `ResponseMiddleware.CreatedAsWrittenDisagrees` | middleware/responseMiddleware.js:46-50 | the envelope res.created builds says '200' while the status is 201 |
| `ResponseMiddleware.CreatedAgrees` | middleware/responseMiddleware.js:46-50 | the corrected envelope agrees with status 201 |
| `ResponseMiddleware.Response.Error` | middleware/responseMiddleware.js:52-66 | status set to the number, envelope status_code its decimal text, envelope sent unwrapped |
| `ResponseMiddleware.Response.ValidationError` | middleware/responseMiddleware.js:68-77 | status 422 and the validation envelope |
| `ResponseMiddleware.Response.NotFound` | middleware/responseMiddleware.js:79-88 | status 404 and the '<resource> not found' envelope |
| `ResponseMiddleware.Response.Unauthorized` | middleware/responseMiddleware.js:90-94 | status 401 and the UNAUTHORIZED envelope |
| `ResponseMiddleware.Response.Forbidden` | middleware/responseMiddleware.js:96-100 | status 403 and the FORBIDDEN envelope |
| `ResponseMiddleware.Response.InternalError` | middleware/responseMiddleware.js:102-106 | status 500 and the INTERNAL_ERROR envelope |
| `ResponseMiddleware.ValidationDetails` | middleware/responseMiddleware.js:120-123 | the loop builds the path→message map of a Mongoose validation error |
| `ResponseMiddleware.DetailsKeys` | middleware/responseMiddleware.js:120-123 | the map's keys are exactly the failing paths |
| `ResponseMiddleware.DetailsValues` | middleware/responseMiddleware.js:121-123 | each path maps to its own message |
| `ResponseMiddleware.HandledError` | middleware/responseMiddleware.js:115-160 | the status and envelope errorHandler sends: always an error envelope without `data`, 422 for a ValidationError (its branches are pinned by the Handled* lemmas) |
| `ResponseMiddleware.ErrorHandler` | middleware/responseMiddleware.js:115-160 | status and body are those of the error-to-envelope mapping |
| `ResponseMiddleware.HandledStatusAgrees` | middleware/responseMiddleware.js:148-159 | every handled error yields an error envelope whose status_code is the status's text |
| `ResponseMiddleware.HandledValidation` | middleware/responseMiddleware.js:119-126 | a ValidationError gives 422 with one detail per failing path and its message |
| `ResponseMiddleware.HandledDuplicate` | middleware/responseMiddleware.js:129-137 | code 11000 gives 409 DUPLICATE_ERROR naming the first duplicated field |
| `ResponseMiddleware.HandledJwt` | middleware/responseMiddleware.js:140-146 | JWT errors give 401 'Invalid token' or 'Token expired' |
| `ResponseMiddleware.HandledOther` | middleware/responseMiddleware.js:148-159 | any other error gives its statusCode (default 500), message, code (default INTERNAL_ERROR) and details |
| `ResponseMiddleware.NotFoundHandler` | middleware/responseMiddleware.js:165-174 | 404 with 'Route <url> not found' |
| `Pagination.QueryInt` | middleware/paginationMiddleware.js:19-20 | `parseInt(x) \|\| d`: the parsed value when it is a non-zero number, the default otherwise |
| `Pagination.SearchTerm` | middleware/paginationMiddleware.js:21 | the search term, or null for a missing or empty one |
| `Pagination.ParsePagination` | middleware/paginationMiddleware.js:17-52 | INVALID_PAGE exactly when page < 1, INVALID_PAGE_SIZE exactly when the page is valid and the size is outside 1..100; otherwise skip = (page−1)·pageSize ≥ 0 and limit = pageSize |
| `Pagination.InvalidPageOnlyWhenNegative` | middleware/paginationMiddleware.js:19-31 | only a negative number written as page is refused; a missing, unreadable or zero page means page 1 |
| `Pagination.PageSizeDefault` | middleware/paginationMiddleware.js:20 | a missing, unreadable or zero page_size means 10 |
| `Pagination.ParsesWrittenNumbers` | middleware/paginationMiddleware.js:19-52 | written in-range numbers are taken as they are |
| `Pagination.PaginationMiddleware` | middleware/paginationMiddleware.js:17-55 | proceeds exactly when parsing succeeds, attaching the spec; otherwise sends the 400 reply with the matching message and code |
| `Pagination.CreateSearchFilter` | middleware/paginationMiddleware.js:63-80 | `{}` for no term or no fields, a single clause for one field, one clause per field in order otherwise |
| `Pagination.SearchIsAnyField` | middleware/paginationMiddleware.js:70-79 | a document matches exactly when one of the fields matches the term |
| `Pagination.NoSearchMatchesAll` | middleware/paginationMiddleware.js:64-66 | without term or fields every document matches |
| `Pagination.CalculatePaginationMetadata` | middleware/paginationMiddleware.js:89-101 | total_pages is the ceiling; next page present exactly when page < total_pages, previous exactly when page > 1 |
| `Pagination.MetadataAgreesWithCreatePagination` | middleware/paginationMiddleware.js:90 | both helpers compute the same total_pages |
| `Pagination.PagesCoverItems` | middleware/paginationMiddleware.js:90-96 | every page from 1 to total_pages starts inside the items, and every later page starts past them |
| `Pagination.NextThenPrevious` | middleware/paginationMiddleware.js:97-100 | the previous page of the next page is the page itself |
| `Pagination.MetadataExample` | middleware/paginationMiddleware.js:89-101 | 25 items in pages of 10, page 3: 3 pages, no next page, previous page 2 |
| `Calendar.DaysInMonth` | models/RecurringPickupSchedule.js:113 | between 28 and 31, and 29 exactly for February of a leap year |
| `Calendar.AddDays` | models/RecurringPickupSchedule.js:107 | the day number grows by n and the time of day is kept |
| `Calendar.AddWeeks` | models/RecurringPickupSchedule.js:107-110 | the day number grows by 7·n and the time of day is kept |
| `Calendar.AddOneMonth` | models/RecurringPickupSchedule.js:113 | the next calendar month, with the day clamped to that month's length and the time kept |
| `Calendar.AddDaysIsLater` | models/RecurringPickupSchedule.js:106-111 | adding days gives a later instant |
| `Calendar.AddOneMonthIsLater` | models/RecurringPickupSchedule.js:112-114 | adding a month gives a later day and instant |
| `Calendar.AddOneMonthKeepsDay` | models/RecurringPickupSchedule.js:113 | a day up to 28 is kept |
| `Calendar.AddOneMonthExample` | models/RecurringPickupSchedule.js:113 | 31 Jan 2023 → 28 Feb, 31 Jan 2024 → 29 Feb, 15 Dec 2024 → 15 Jan 2025 |
| `RecurringSchedule.DayError` | models/RecurringPickupSchedule.js:16-45 | no error exactly when a needed day is present and a present day is in range; the range message wins over the required one |
| `RecurringSchedule.DayOfWeekError` | models/RecurringPickupSchedule.js:16-30 | valid exactly when weekly/biweekly schedules have a day and any day is 0..6 |
| `RecurringSchedule.DayOfMonthError` | models/RecurringPickupSchedule.js:31-45 | valid exactly when monthly schedules have a day and any day is 1..31 |
| `RecurringSchedule.DayErrorAsWritten` | models/RecurringPickupSchedule.js:20-27 | as the code runs: no validator fires on an omitted day |
| `RecurringSchedule.OmittedDayAcceptedAsWritten` | models/RecurringPickupSchedule.js:20-29 | weekly, biweekly and monthly schedules without their day pass as written, and are refused by the corrected validators |
| `RecurringSchedule.AsWrittenDiffersOnlyOnOmittedDay` | models/RecurringPickupSchedule.js:16-45 | the written and corrected validators disagree exactly on an omitted day that the frequency needs |
| `RecurringSchedule.OtherFrequencyDayOptional` | models/RecurringPickupSchedule.js:18-45 | a day the frequency does not need may be left out or null; out-of-range days are refused whatever the frequency |
| `RecurringSchedule.Schedule.constructor` | models/RecurringPickupSchedule.js:72-75 | is_active defaults to true |
| `RecurringSchedule.Schedule.ValidationErrors` | models/RecurringPickupSchedule.js:11-79 | with the corrected day validators: no error exactly when a frequency is given, both day fields are valid (the needed one present) and a next pickup date is set |
| `RecurringSchedule.Schedule.NextPickupDate` | models/RecurringPickupSchedule.js:101-118 | from next_pickup_date, or now when unset: one or two weeks later, or one month later; unchanged without a frequency; strictly later otherwise |
| `RecurringSchedule.Schedule.ValidationErrorsAsWritten` | models/RecurringPickupSchedule.js:11-79 | the program's own save: no error exactly when a frequency and a next date are set and each day field, when defined, passes its validators |
| `RecurringSchedule.SaveAsWrittenAcceptsMore` | models/RecurringPickupSchedule.js:16-45 | the program's save accepts everything the corrected validation accepts, and more only for an undefined day its frequency needs |
| `RecurringSchedule.Schedule.ToggleActive` | models/RecurringPickupSchedule.js:121-124 | flips is_active, changes nothing else, and returns the save's validation outcome |
| `RecurringSchedule.ToggleTwice` | models/RecurringPickupSchedule.js:121-124 | toggling twice restores the schedule |
| `RecurringSchedule.NextPickupExample` | models/RecurringPickupSchedule.js:103-113 | a monthly schedule due on 31 Jan 2024 moves to 29 Feb 2024 at the same time, whatever `now` is |
| `Pickup.BaseCost` | models/Pickup.js:168-174 | 800 exactly for recyclable, 2000 exactly for hazardous, 1000 otherwise |
| `Pickup.EffectiveWeight` | models/Pickup.js:175 | the weight when it is non-zero, never 0 |
| `Pickup.EstimatedCost` | models/Pickup.js:167-182 | twice the cost is base·weight·3 when urgent, base·weight·2 otherwise |
| `Pickup.UnknownWasteTypeIsGeneral` | models/Pickup.js:174 | any other or missing waste type costs as general |
| `Pickup.MissingWeightIsOne` | models/Pickup.js:175 | a missing weight costs as 0 and as 1 |
| `Pickup.UrgentSurcharge` | models/Pickup.js:177-179 | the urgent cost is exactly 3/2 of the normal cost |
| `Pickup.CostPositive` | models/Pickup.js:167-182 | for non-negative weights the cost is at least the base rate |
| `Pickup.CostExamples` | models/Pickup.js:167-182 | hazardous 3 urgent = 9000, recyclable none = 800, missing type 2 urgent = 3000 |
| `Pickup.RequiredError` | models/Pickup.js:10-43 | a `required` validator: no error exactly when the value is present, else its single message |
| `Pickup.WasteTypeError` | models/Pickup.js:35-39 | waste_type: no error exactly when it is one of general/recyclable/hazardous; missing gives 'Waste type is required', another value Mongoose's enum message |
| `Pickup.MaxError` | models/Pickup.js:97 | a `max` validator: no error for a missing or small enough value, else its single message |
| `Pickup.MinError` | models/Pickup.js:49-56 | a `min` validator: no error for a missing or large-enough value, otherwise its one message |
| `Pickup.Pickup.constructor` | models/Pickup.js:30-60 | status pending, urgent_pickup false, no updates; only given paths are modified |
| `Pickup.Pickup.ValidationErrors` | models/Pickup.js:10-98 | no error exactly when the bounds hold, the address is non-empty and a pickup date is set |
| `Pickup.Pickup.Save` | models/Pickup.js:202-211 | validation first; on success the cost is recomputed exactly when waste_type, estimated_weight or urgent_pickup was modified, nothing else changes, and the modified set is cleared |
| `Pickup.Pickup.SetWasteType` | models/Pickup.js:204 | sets waste_type and marks it modified when new or changed |
| `Pickup.Pickup.SetEstimatedWeight` | models/Pickup.js:205 | sets estimated_weight and marks it modified when new or changed |
| `Pickup.Pickup.SetUrgentPickup` | models/Pickup.js:206 | sets urgent_pickup and marks it modified when new or changed |
| `Pickup.Pickup.SetRating` | models/Pickup.js:94-98 | sets rating and marks it modified when new or changed |
| `Pickup.Pickup.AddStatusUpdate` | models/Pickup.js:185-199 | appends one entry (photos default to []), sets the status to it, then saves; on success the document is no longer new and nothing is marked modified, on failure the status paths stay marked along with any earlier ones |
| `Pickup.TwoStatusUpdates` | models/Pickup.js:191-197 | two updates append two entries in order, and the later status wins |
| `Pickup.ToJson` | models/Pickup.js:214-232 | coordinates flattened when the inner array is present; driver_name and driver_phone copied when assigned_driver is an object; all other keys unchanged |
| `Pickup.UnpopulatedDriver` | models/Pickup.js:223-229 | an unpopulated driver id still adds driver_name and driver_phone, both undefined |
| `Pickup.PopulatedDriver` | models/Pickup.js:223-229 | a populated driver gives its name and phone; no driver, no extra keys |
| `Pickup.FlattensPoint` | models/Pickup.js:218-220 | a GeoJSON point becomes its [lng, lat] array |
| `RefreshTokens.RefreshToken.constructor` | models/RefreshToken.js:44-55 | expiry seven days after creation, not revoked, deviceInfo defaulting to empty |
| `RefreshTokens.RefreshToken.Revoke` | models/RefreshToken.js:67-70 | sets isRevoked |
| `RefreshTokens.ExpiresAfterLifetime` | models/RefreshToken.js:52 | no token is valid from seven days after creation on |
| `RefreshTokens.ValidUntilExpiry` | models/RefreshToken.js:73-75 | an unrevoked token is valid during its lifetime |
| `RefreshTokens.RevokedNeverValid` | models/RefreshToken.js:73-75 | a revoked token is valid at no time |
| `RefreshTokens.InvalidStaysInvalid` | models/RefreshToken.js:73-75 | an invalid token stays invalid later |
| `RefreshTokens.RevokeTwice` | models/RefreshToken.js:67-70 | revoking is idempotent |
| `RefreshTokens.TokenStore.FindOne` | controllers/authController.js:128 | the record filed under the text, if any |
| `RefreshTokens.TokenStore.FindValidToken` | models/RefreshToken.js:58-64 | found exactly when a record exists, is not revoked and expires after now |
| `RefreshTokens.TokenStore.CreateToken` | models/RefreshToken.js:44-55 | a taken text is refused and nothing changes; otherwise a fresh unrevoked record for the user is filed |
| `RefreshTokens.FindValidIsFindOneAndValid` | models/RefreshToken.js:58-75 | the query's answer is exactly findOne followed by isValid |
| `RefreshTokens.CreateThenFind` | models/RefreshToken.js:44-64 | a new token is found valid exactly before seven days have passed |
| `Users.FindFirst` | controllers/authController.js:25 | findOne's answer: the first matching user, or none when none matches |
| `Users.UserStore.FindByEmail` | controllers/authController.js:25 | a user with that email, none exactly when no user has it |
| `Users.UserStore.FindByGoogleId` | config/passport.js:43 | a user with that Google id, none exactly when no user has it |
| `Users.UserStore.FindByEmailToken` | controllers/authController.js:197-200 | a user with the token unexpired at now, none exactly when there is none |
| `Users.UserStore.FindByResetToken` | controllers/authController.js:262-265 | a user with the reset token unexpired at now, none exactly when there is none |
| `Users.UserStore.Put` | controllers/authController.js:210 | saving a stored user replaces it in place |
| `Users.UserStore.Add` | controllers/authController.js:32-36 | a new user is appended with the next id |
| `AuthController.AuthData` | controllers/authController.js:46-54 | access token, refresh token text and the user's id and email |
| `AuthController.NewUser` | controllers/authController.js:32-36 | name, email and password as given; unverified, unlinked, no failed logins |
| `AuthController.Register` | controllers/authController.js:21-58 | 400 'User already exists' for a taken email with no change; otherwise one user added and a valid refresh token filed for it, 201; a refresh-token text already stored ends unhandled with 500 and no token added; on success the new token expires seven days after now and every other stored token is kept as it was |
| `AuthController.LoggedIn` | controllers/authController.js:89-96 | last login is now; attempts reset only when there were any |
| `AuthController.Login` | controllers/authController.js:63-118 | checks in order unknown email (401), locked (423), wrong password (401, attempts counted), then success with a new valid refresh token; a refresh-token text already stored ends unhandled with 500, after the user was saved; on success the new token expires seven days after now and every other stored token is kept as it was |
| `AuthController.Logout` | controllers/authController.js:123-135 | revokes the named token if stored, touches no other token, always replies 200 |
| `AuthController.LogoutTwice` | controllers/authController.js:123-135 | logging out twice revokes exactly what logging out once does |
| `AuthController.Refresh` | controllers/authController.js:165-189 | 400 without a token, 401 unless valid now, otherwise a new access token for its user; no store changes |
| `AuthController.RefreshRefusesRevoked` | controllers/authController.js:174-178 | a revoked token is never accepted |
| `AuthController.VerifyEmail` | controllers/authController.js:194-213 | 400 unless a user holds the unexpired token; that user becomes verified and loses the token |
| `AuthController.VerifyEmailOnce` | controllers/authController.js:197-210 | a verification token works at most once |
| `AuthController.ResendEmailVerification` | controllers/authController.js:218-233 | 400 when already verified; otherwise a new token and expiry are stored |
| `AuthController.ResetPassword` | controllers/authController.js:238-254 | 404 for an unknown email; otherwise a reset token and expiry are stored |
| `AuthController.ConfirmPasswordReset` | controllers/authController.js:259-278 | 400 unless a user holds the unexpired reset token; the password is replaced and the token cleared |
| `AuthController.ConfirmPasswordResetOnce` | controllers/authController.js:262-275 | a reset token works at most once |
| `AuthController.ChangePassword` | controllers/authController.js:283-298 | 400 when the current password does not match; otherwise only the password changes |
| `Passport.MissingKeys` | config/passport.js:12 | exactly the required keys that are unset or empty |
| `Passport.ValidateGoogleOAuthConfig` | config/passport.js:6-28 | true exactly when every required key is set and non-empty |
| `Passport.ConfigNeedsAllThree` | config/passport.js:7-14 | enabled exactly when client id, secret and callback URL are all set |
| `Passport.AfterGoogleLogin` | config/passport.js:40-85 | the strategy callback over the stored users: by Google id, else by email, else a new account; it fails only for a profile without an email, with the TypeError message and no store change |
| `Passport.GoogleUser` | config/passport.js:70-78 | a new account is linked, verified, password-less, with the profile's name and first email |
| `Passport.GoogleVerify` | config/passport.js:40-85 | store and answer are those of the find-by-Google-id, else link-by-email, else create decision |
| `Passport.GoogleIdTakesPriority` | config/passport.js:43-53 | the account holding the Google id is chosen; a linked one is left unchanged, an unlinked one is linked |
| `Passport.LinksByEmail` | config/passport.js:56-67 | without such an account, the first account with the email gets the Google id and nothing else changes |
| `Passport.CreatesWhenUnknown` | config/passport.js:69-81 | with neither, exactly one account is appended |
| `Passport.AtMostOneNewUser` | config/passport.js:43-81 | the store grows by at most one account, only in the create case, and the answer names a stored account |
| `Passport.NoEmailFails` | config/passport.js:49-57 | a profile without email fails unless a linked account holds its Google id |
| `Cloudinary.Split` | config/cloudinary.js:71 | `split` gives at least one piece |
| `Cloudinary.SplitPieces` | config/cloudinary.js:71 | no piece contains the separator |
| `Cloudinary.SplitFirst` | config/cloudinary.js:73 | the first piece runs up to the first separator or the end |
| `Cloudinary.SplitLast` | config/cloudinary.js:71-72 | the last piece runs from after the last separator, or is all of the string |
| `Cloudinary.JoinSplit` | config/cloudinary.js:71 | joining the pieces restores the string |
| `Cloudinary.SplitJoin` | config/cloudinary.js:71 | splitting a join of separator-free pieces gives the pieces back |
| `Cloudinary.FileName` | config/cloudinary.js:71-72 | the tail after the last '/' (or the whole URL), containing no '/' |
| `Cloudinary.Stem` | config/cloudinary.js:73 | the head before the first '.' (or the whole name), containing no '.' |
| `Cloudinary.ExtractPublicId` | config/cloudinary.js:70-75 | the folder 'trashapp/pickups/' followed by the stem of the file name |
| `Cloudinary.FileNameIsLastSegment` | config/cloudinary.js:71-72 | any '/'-free tail starting after a '/' is the file name |
| `Cloudinary.StemIsFirstPiece` | config/cloudinary.js:73 | any '.'-free head ending at a '.' is the stem |
| `Cloudinary.NoSlashWholeUrl` | config/cloudinary.js:71-72 | without a '/' the whole URL is the file name |
| `Cloudinary.NoDotWholeName` | config/cloudinary.js:73 | without a '.' the whole file name is used |
| `Cloudinary.StoredPhotoId` | config/cloudinary.js:70-75 | '<dir>/<stem>.<ext>' gives the folder plus the stem |
| `Cloudinary.FileFilter` | config/cloudinary.js:37-44 | accepts exactly MIME types starting with 'image/', otherwise rejects with 'Only image files are allowed' |
| `Cloudinary.FilterExamples` | config/cloudinary.js:39-43 | image/png and image/webp accepted; application/pdf, IMAGE/PNG and image refused |
| `Cloudinary.AdmittedUploadBound` | config/cloudinary.js:33-36 | an admitted upload of at most 5 files of at most 5 MiB each holds at most 25 MiB |

## Left out

- **Express wiring.**
  - How Express dispatches `errorHandler` is not modelled. It is declared with three parameters (middleware/responseMiddleware.js:115), so Express would not call it as an error handler; only its mapping from error to envelope is modelled.
  - Its default branch reads `err.statusCode` and ignores `res.statusCode`. A handler that calls `res.status(400)` and then throws would therefore get 500 from it. The auth handlers' failures are modelled as the status their code sets, through `Outcome`.
  - Route tables, `asyncHandler`, `next()`, headers and the request IP are not modelled. The device information is a parameter.
- **User.js.** models/User.js is not part of this model. Password hashing and comparison, the lock rules, the login-attempt counters and the token generators are parameters of `UserModel`. User.js's own validation on `User.create` and `save` is not modelled.
- **JWT.** JWT signing and expiry are a parameter (`accessToken`). The JWT error names are plain strings.
- **Randomness and time.** `Math.random` token text and the clock are parameters.
- **Mongoose.**
  - Not modelled: the query engine, indexes, the TTL index on `expiresAt`, `populate`, timestamps, and the `toObject` conversion.
  - Enum validation on status, frequency, time slot and pickup time is not modelled, because those fields are typed. The waste-type enum is modelled (`Pickup.WasteTypeError`), with Mongoose's default enum message. Casting errors are not modelled either.
- **Strings and regular expressions.**
  - `trim` on string paths is not modelled; an address is required to be non-empty as given.
  - In `createSearchFilter`, only the shape of the filter is modelled. How the case-insensitive `RegExp` matches is a parameter `hit`.
- **Schedules.** The `user`, `time_slot`, `waste_type` and `address` paths of a schedule and its `toJSON` (models/RecurringPickupSchedule.js:127-136) are not modelled, because they only repeat what the pickup model shows. The same goes for the `user` path of a pickup.
- **Dates.** Daylight-saving time and time zones are not modelled. date-fns works on local dates; the model uses local civil dates with milliseconds of the day.
- **Weights and rounding.**
  - Floating-point weights are not modelled; weights are integers, which makes the ×1.5 surcharge and `Math.round` exact.
  - The cost lookup over `Object.prototype` keys (`baseCosts['constructor']`) is not modelled: every unknown type costs as general.
- **Missing values.**
  - Request bodies with missing fields (undefined email or password) are not modelled; the fields are strings.
  - The handlers that look a user up by id crash when the id is unknown; that crash is modelled as the outcome `Crash`.
  - A duplicate refresh-token text makes `RefreshToken.create` reject with the driver's code 11000 and no status. Because `errorHandler` is not dispatched, Express's final handler answers 500; this is the outcome `Unhandled(500)` of `Register` and `Login`. The driver's message text is not modelled.
  - A Google profile without an email throws a TypeError; that is modelled as a `Failure` answer.
- **Other code.**
  - `getProfile` (controllers/authController.js:140-160) only reads a user.
  - The Google OAuth controller stubs (controllers/authController.js:300-330) are placeholders.
  - `deleteImage`/`deleteImages`, the Cloudinary storage configuration, and passport (de)serialisation only call external services; all of these are left out.
- `RecurringSchedule.Schedule.ValidationErrors`: uses the corrected day validators of the finding below, so a schedule saved without the day its frequency needs is refused. The program's save accepts it. The program's outcome is `RecurringSchedule.Schedule.ValidationErrorsAsWritten`, related to it by `RecurringSchedule.SaveAsWrittenAcceptsMore`.
- `RecurringSchedule.Schedule.ToggleActive`: reports the corrected validation outcome. `toggleActive()` on a stored schedule without the day its frequency needs saves successfully in the program, but fails here with the "required" message.
- `Pagination.QueryInt`: query values are plain strings. A repeated parameter (`?page=2&page=3`) arrives as an array, which `parseInt` reads through its text, so it counts as its first element; for `search` an array is truthy. Arrays are not modelled.
- `Pagination.ParsePagination`: pages are unbounded integers. `parseInt` yields a double, so a page beyond 2^53 makes `skip` inexact, and a long enough digit string gives `Infinity`; pages are assumed to stay within 2^53.
- `ResponseUtils.CreatePagination`: requires a positive page size; JavaScript would divide by zero and produce `Infinity` or `NaN` pages.
- `Pagination.CalculatePaginationMetadata`: requires a positive page size for the same reason; the middleware never attaches a smaller one.

## Findings

| source | as written | input that shows it | evidently intended | confidence | as-written member | corrected member |
|---|---|---|---|---|---|---|
| middleware/responseMiddleware.js:46-50 | `res.created` builds its envelope with `successResponse`, so the envelope says status_code '200' while the HTTP status is 201 | `res.created({id: 1})`, as register does | the envelope says '201', as `createdResponse` builds it | not executed | `ResponseMiddleware.Response.CreatedAsWritten` (shown by `ResponseMiddleware.CreatedAsWrittenDisagrees`) | `ResponseMiddleware.Response.Created` (with `ResponseMiddleware.CreatedAgrees`) |
| models/RecurringPickupSchedule.js:16-45 | the "required for weekly/biweekly" and "required for monthly" checks are custom validators on paths that are not required. Mongoose runs no validator but `required` on an undefined value, so an omitted day is never refused | a weekly schedule saved without `day_of_week`, or a monthly one without `day_of_month` | the schedule is refused with 'Day of week is required for weekly and biweekly schedules' or 'Day of month is required for monthly schedules' | not executed | `RecurringSchedule.DayErrorAsWritten` (shown by `RecurringSchedule.OmittedDayAcceptedAsWritten`) | `RecurringSchedule.DayError` (with `RecurringSchedule.AsWrittenDiffersOnlyOnOmittedDay`) |
