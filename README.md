# Telegram dispatch bot: a verified model of the webhook core

The bot runs a small delivery business over Telegram. One webhook receives two kinds of update from the Bot API:

- callback queries, which are presses on inline buttons;
- messages, which are text, forwards, locations, photos and commands.

Admins use the bot to create and edit orders and to send each order to a driver. They also manage drivers, admins and QR payment codes. Drivers register, receive orders and report pickup, arrival and completion. Customers choose a language, order online, pay and rate the delivery.

All state lives in memory: orders, drivers, customers, the session table, QR codes, the admin list, the admins' language preferences, and the drivers with a disconnect prompt pending.

The model keeps that shape:

- `Dispatch.World` is a class whose fields are those tables. Its handlers are methods that change the fields in place. `Customer`, `Driver` and `Order` are classes too, because the handlers update their fields (status, driver, payment, language).
- Each handler returns the Bot API calls it makes, in order, as a sequence of `Effects.Effect` values. Examples are `sendMessage`, `editMessageText`, `editMessageReplyMarkup`, `answerCallbackQuery`, `sendPhoto` and `deleteMessage`.
- Message wording is abstract: a `Text` is a purpose and the values the message quotes.
- Keyboards are exact. Every `callback_data` token a keyboard emits is modelled, and lemmas show that each token decodes and routes to the branch that handles it.
- `Callbacks` holds the token decoder (`action:sub:id`) and the callback router as pure functions.
- `Dispatch.RouteMessage` is the message router, a chain of tests in source order.
- `Sessions` holds the session table with its merge-on-write and remove-on-clear behaviour.
- `Intake` holds the content extractor of order intake: location, first URL, text and caption.
- `Strings` holds the JavaScript string and number functions the handlers rely on: `trim`, `split`, `toString`, `parseInt`, `parseFloat` and `replace`.

Values that the original draws from the environment are parameters of the handlers:

- `now` stands for `Date.now()`, which gives `User_<now>` and `qr_<now>`;
- `orderNumber` stands for `genOrderNumber()`, which is random.

Every handler preserves the invariant `World.Valid`: the primary admin stays an admin, each user has at most one session record, and no two drivers share an id. Because the ids are distinct, a registered driver is the only driver its id selects (`Scenarios.OnlyDriverWithId`).

### Where the behaviour differs from the system's own description

The model follows the code where the two disagree:

- A `blocked` driver is not terminal. `/register` sets any existing driver `online`, blocked or not (`route.ts` 273-280). `/disconnect` takes a blocked driver `offline`.
- `cancel` from the admin's keyboard sets the order `cancelled` and leaves the driver assigned to it (`Scenarios.GoThenCancel`). An approved driver cancellation clears the order's driver without freeing the driver.
- The driver steps (`pickup`, `arrived`, `completed`) accept a press from any registered driver, not only the order's own. They have no status guard, so repeating a step repeats its notifications.
- The admin's menu texts are tested before the session steps. An admin in the middle of a session who presses a menu button leaves the session pending.
- A feedback press records whatever score `parseInt` reads. The keyboard offers 1 to 5, but no range is checked.
- `/start` keys the session by the chat id, where every other step keys it by the sender's id.
- An intake forward finds or creates the forward sender's customer even when no order results.
- The new draft's placeholder customer is not added to the customers table.
- An unreadable cash amount keeps the `customer_cash_given` session.
- The main menu's `SAVED` and `ONLINE` buttons are not among the texts the message handler answers.
- The admin action keyboard of a completed order offers `admin_archive:<id>` (`keyboards.ts` 84). That token decodes without an entity id and opens the list of all archived orders, not the one order.
- The completed-order keyboard (`keyboards.ts` 141-145) offers `archive:<id>`, which no branch handles. The `archive` case at `route.ts` 470 is a sub-action of `order_action:<verb>:<id>`, not an action (`Keyboards.ArchiveButtonUnhandled`).
- The keyboard module only `declare`s `drivers`, `qrCodes`, `adminUserIds`, `primaryAdminId` and `adminLanguagePrefs` (`keyboards.ts` 38-42); nothing binds them there. The model's keyboard functions take the webhook's own tables as parameters instead: the driver entries, the QR codes, the admin ids with the primary id, and the admin's language preference.
- The `share_location_to_customer` session mode is set but never read.

## Model

| member | source | states |
|---|---|---|
| Lists.FindIndex | src/app/api/telegram/webhook/route.ts:62 | the position of the first element that satisfies the predicate is returned, and no earlier element satisfies it; -1 exactly when no element does |
| Lists.Find | src/app/api/telegram/webhook/route.ts:60 | a value is found exactly when some element satisfies the predicate, and the value found is the first element of the list that does |
| Lists.RemoveAt | src/app/api/telegram/webhook/route.ts:72 | `splice(i, 1)`: the list is one shorter, elements before `i` stay in place and those after it move down by one |
| Lists.RemoveAtSubset | src/app/api/telegram/webhook/route.ts:644-646 | a removal never introduces an element |
| Lists.Without | src/app/api/telegram/webhook/route.ts:617 | the filtered admin list holds exactly the old ids other than the removed one |
| Lists.WithoutAbsent | src/app/api/telegram/webhook/route.ts:617 | removing an id that is not present leaves the list identical, order included |
| Sessions.Lookup | src/app/api/telegram/webhook/route.ts:60 | `getSession` finds nothing exactly when the user has no record; otherwise it returns the state of one of that user's records |
| Sessions.PutMerges | src/app/api/telegram/webhook/route.ts:61-67 | after `setSession` the user has a record; each field holds the written value when written, else the value it had before (object spread, later fields win) |
| Sessions.PutOthers | src/app/api/telegram/webhook/route.ts:61-67 | a write leaves every other user's session as it was |
| Sessions.PutSize | src/app/api/telegram/webhook/route.ts:61-67 | the table grows by one record for a user who had none and otherwise keeps its size |
| Sessions.PutUnique | src/app/api/telegram/webhook/route.ts:61-67 | a write keeps the table at one record per user |
| Sessions.ClearRemoves | src/app/api/telegram/webhook/route.ts:69-74 | after `clearSession` the user has no session, given at most one record per user |
| Sessions.ClearOthers | src/app/api/telegram/webhook/route.ts:69-74 | a clear leaves every other user's session as it was |
| Sessions.ClearAbsent | src/app/api/telegram/webhook/route.ts:69-74 | clearing a user without a session changes nothing |
| Sessions.ClearUnique | src/app/api/telegram/webhook/route.ts:69-74 | a clear keeps the table at one record per user |
| Strings.TrimStart | src/app/api/telegram/webhook/route.ts:135 | the result is a suffix of the input that starts with a non-whitespace character, and every character removed is whitespace |
| Strings.TrimEnd | src/app/api/telegram/webhook/route.ts:135 | the result is a prefix of the input that ends with a non-whitespace character, and every character removed is whitespace |
| Strings.Trim | src/app/api/telegram/webhook/route.ts:135 | `trim()` never lengthens; the result has no whitespace at either end; a string without whitespace is kept, an all-whitespace string becomes empty |
| Strings.TrimStartAllSpace | src/app/api/telegram/webhook/route.ts:135 | a string of whitespace only has nothing left after the leading whitespace goes |
| Strings.TrimEnds | src/app/api/telegram/webhook/route.ts:135 | trimming the start and then the end leaves non-whitespace at both ends, keeps a string without whitespace and empties an all-whitespace one |
| Strings.Split | src/app/api/telegram/webhook/route.ts:336 | `split(sep)` gives at least one part, no part contains the separator, there is one part exactly when the separator is absent, and the first part is the text before the first separator |
| Strings.SplitWithoutSeparator | src/app/api/telegram/webhook/route.ts:1260 | a text without the separator splits into itself alone |
| Strings.SplitAtFirstSeparator | src/app/api/telegram/webhook/route.ts:336 | splitting at the first separator gives the text before it followed by the parts of the rest |
| Strings.SplitJoin | src/app/api/telegram/webhook/route.ts:336 | parts without the separator, joined with it, split back into exactly those parts, so a built token decodes to its parts |
| Strings.JoinSplit | src/app/api/telegram/webhook/route.ts:336 | joining the parts of a split gives back the text |
| Strings.NatToString | src/app/api/telegram/webhook/route.ts:87 | the decimal rendering of a natural number is a non-empty string of digits |
| Strings.IntToString | src/app/api/telegram/webhook/route.ts:87 | `toString()` of an id is non-empty; it is all digits exactly when the number is non-negative and starts with `-` exactly when it is negative |
| Strings.IntToStringInjective | src/app/api/telegram/webhook/route.ts:87-100 | two user ids give the same customer or driver id exactly when they are equal |
| Strings.DigitsValueOfNatToString | src/app/api/telegram/webhook/route.ts:87 | reading the digits of a rendering back gives the number |
| Strings.LeadingDigits | src/app/api/telegram/webhook/route.ts:612 | the longest prefix of digits, where `parseInt` stops reading |
| Strings.LeadingDigitsOfDigits | src/app/api/telegram/webhook/route.ts:1238 | a string of digits is read whole |
| Strings.DecimalNotTrimmed | src/app/api/telegram/webhook/route.ts:1238 | a digit string has no leading whitespace and no sign, so `parseInt` reads it as it is |
| Strings.ParseIntOfDecimal | src/app/api/telegram/webhook/route.ts:1237-1238 | `parseInt` of a string that passes the `/^\d+$/` test is that string's decimal value |
| Strings.ParseIntOfNegative | src/app/api/telegram/webhook/route.ts:544-546 | `parseInt` reads the rendering of a negative number back as that number |
| Strings.ParseIntOfNonNegative | src/app/api/telegram/webhook/route.ts:544-546 | `parseInt` reads the rendering of a non-negative number back as that number |
| Strings.ParseIntOfIntToString | src/app/api/telegram/webhook/route.ts:544-546 | `parseInt(driver.id)` recovers the numeric user id the driver id was made from, so the pending-prompt key of a driver is found |
| Strings.FractionValue | src/app/api/telegram/webhook/route.ts:1128 | the digits after the point contribute a value in [0, 1) |
| Strings.ParseFloatOfDecimal | src/app/api/telegram/webhook/route.ts:1128 | `parseFloat` of a plain digit string is its integer value |
| Strings.IndexOfFrom | src/app/api/telegram/webhook/route.ts:135 | the first position at or after `k` where the pattern occurs, with no occurrence before it; none exactly when it occurs nowhere from `k` on |
| Strings.ReplaceFirst | src/app/api/telegram/webhook/route.ts:135 | `replace` of a pattern that does not occur leaves the text unchanged |
| Domain.DisplayName | src/app/api/telegram/webhook/route.ts:89 | a new record's name is never empty; it is first and last name joined by a space when both are set, and the decimal id when no name field is set |
| Callbacks.Decode | src/app/api/telegram/webhook/route.ts:336-339 | the action is the text before the first `:`; there is a sub-action exactly when the data contains `:`; there is no entity id without a sub-action, and always one when the action takes an entity |
| Callbacks.DecodeToken1 | src/app/api/telegram/webhook/route.ts:336-339 | a token without a colon is an action with no sub-action and no entity |
| Callbacks.DecodeToken2 | src/app/api/telegram/webhook/route.ts:336-339 | `a:x` decodes to action `a`, sub-action `x` and entity `x`, or no entity for `admin_*`, `none` and `lang` |
| Callbacks.DecodeToken3 | src/app/api/telegram/webhook/route.ts:336-339 | `a:s:y` decodes to action `a`, sub-action `s` and entity `y` |
| Callbacks.ActionOfToken2 | src/app/api/telegram/webhook/route.ts:336-337 | a two-part token's action is its first part, whatever follows |
| Callbacks.PrefixOfToken3 | src/app/api/telegram/webhook/route.ts:336-338 | a three-part token's action and sub-action are its first two parts, whatever the entity |
| Callbacks.TokensDiffer | src/app/api/telegram/webhook/route.ts:336-339 | tokens with different actions, or different sub-actions, are different strings, so no button is mistaken for another |
| Callbacks.Token2Injective | src/app/api/telegram/webhook/route.ts:336-339 | two-part tokens for the same entity are equal only for the same action |
| Callbacks.Token3Injective | src/app/api/telegram/webhook/route.ts:336-339 | three-part tokens for the same action and entity are equal only for the same sub-action |
| Callbacks.Token3AsToken2 | src/app/api/telegram/webhook/route.ts:336-339 | a three-part token is a two-part token whose action contains the colon |
| Callbacks.OrderLookupOfToken3 | src/app/api/telegram/webhook/route.ts:341 | a three-part token looks its entity up as an order unless its action is `qr`, `disconnect` or starts with `admin` |
| Callbacks.OrderLookupOfToken2 | src/app/api/telegram/webhook/route.ts:341 | a two-part token looks its entity up as an order unless its action is one of those or takes no entity |
| Callbacks.RouteCallback | src/app/api/telegram/webhook/route.ts:328-331 | the handler gives up on the payload exactly when the press has no message or no data |
| Callbacks.Route | src/app/api/telegram/webhook/route.ts:344-905 | nothing runs exactly when the action is empty; every order branch needs a found order, the ping needs one with a driver, and the branches that read a sub-action or entity run only when it is set and non-empty |
| Callbacks.OrderVerbTakesEntity | src/app/api/telegram/webhook/route.ts:339-341 | every order verb takes an entity and is looked up as an order |
| Callbacks.RouteOfOrderToken3 | src/app/api/telegram/webhook/route.ts:336-341 | a three-part order-verb token reaches its verb's branch when the order exists and no branch otherwise |
| Callbacks.RouteOfOrderToken2 | src/app/api/telegram/webhook/route.ts:336-341 | the same for a two-part order-verb token |
| Callbacks.RouteOfOrderVerb | src/app/api/telegram/webhook/route.ts:377-905 | a decoded press with an order verb, a sub-action and an entity runs that verb's branch when the order exists, else nothing |
| Callbacks.RouteOfCustomerPayVerb | src/app/api/telegram/webhook/route.ts:377 | `customer_pay` runs the customer payment branch exactly when its order exists |
| Callbacks.RouteOfDetailVerb | src/app/api/telegram/webhook/route.ts:668 | `detail` runs the order card branch exactly when its order exists |
| Callbacks.RouteOfEditMenuVerb | src/app/api/telegram/webhook/route.ts:679 | `edit_menu` runs the edit keyboard branch exactly when its order exists |
| Callbacks.RouteOfEditVerb | src/app/api/telegram/webhook/route.ts:687 | `edit` runs the field editor branch exactly when its order exists |
| Callbacks.RouteOfPaymentVerb | src/app/api/telegram/webhook/route.ts:712 | `payment` runs the payment branch exactly when its order exists |
| Callbacks.RouteOfAssignVerb | src/app/api/telegram/webhook/route.ts:728 | `assign` runs the assignment branch exactly when its order exists |
| Callbacks.RouteOfGoVerb | src/app/api/telegram/webhook/route.ts:738 | `go` runs the dispatch branch exactly when its order exists |
| Callbacks.RouteOfCancelVerb | src/app/api/telegram/webhook/route.ts:755 | `cancel` runs the cancellation branch exactly when its order exists |
| Callbacks.RouteOfSaveVerb | src/app/api/telegram/webhook/route.ts:761 | `save` runs the save-as-draft branch exactly when its order exists |
| Callbacks.RouteOfDriverVerb | src/app/api/telegram/webhook/route.ts:768 | `driver` runs the driver step branch exactly when its order exists |
| Callbacks.RouteOfDelayVerb | src/app/api/telegram/webhook/route.ts:860 | `delay` runs the delay notice branch exactly when its order exists |
| Callbacks.RouteOfFeedbackVerb | src/app/api/telegram/webhook/route.ts:886 | `fb` runs the rating branch exactly when its order exists |
| Callbacks.RouteOfArchiveButton | src/app/api/telegram/webhook/route.ts:476 | `admin_archive:<id>` carries no entity and always opens the archive list |
| Keyboards.RouteOfTargetingToken | src/app/api/telegram/webhook/route.ts:336-341 | a token that targets an order is looked up by that order's id and runs its branch exactly when the order exists |
| Keyboards.TargetsOrderToken3 | src/app/api/telegram/webhook/route.ts:336-341 | a three-part order-verb token targets the order it names |
| Keyboards.TargetsOrderToken2 | src/app/api/telegram/webhook/route.ts:336-341 | a two-part order-verb token targets the order it names |
| Keyboards.AdminMainMenu | src/app/api/telegram/webhook/keyboards.ts:61-68 | the admin menu is a resized reply keyboard that stays open |
| Keyboards.AdminActionKeyboard | src/app/api/telegram/webhook/keyboards.ts:70-103 | the first button always opens the order's edit menu |
| Keyboards.AdminActionButtons | src/app/api/telegram/webhook/keyboards.ts:70-103 | cancel is offered exactly for dispatched orders, archive exactly for completed ones, arrived, completed and ping exactly for active ones, GO exactly for undispatched ones |
| Keyboards.AdminActionTokensDistinct | src/app/api/telegram/webhook/keyboards.ts:70-103 | the action keyboard's seven tokens for one order are pairwise different |
| Keyboards.AdminActionRowsUndispatched | src/app/api/telegram/webhook/keyboards.ts:70-103 | a new, draft or online order shows Edit, then GO |
| Keyboards.AdminActionRowsActive | src/app/api/telegram/webhook/keyboards.ts:70-103 | an active order shows Edit and Cancel, then Arrived, Completed and Ping Driver |
| Keyboards.AdminActionRowsCompleted | src/app/api/telegram/webhook/keyboards.ts:70-103 | a completed order shows Edit, Cancel and Archive |
| Keyboards.AdminActionRowsOther | src/app/api/telegram/webhook/keyboards.ts:70-103 | any other status shows Edit and Cancel only |
| Keyboards.AdminEditKeyboard | src/app/api/telegram/webhook/keyboards.ts:105-139 | four rows; the third has a third button exactly when the customer has no language |
| Keyboards.AdminEditLanguageButton | src/app/api/telegram/webhook/keyboards.ts:105-139 | the "set Russian" button is offered exactly when the customer has no language |
| Keyboards.AdminEditTargetsOrder | src/app/api/telegram/webhook/keyboards.ts:105-139 | every button of the edit keyboard acts on the order it was built for |
| Keyboards.CompletedOrderKeyboard | src/app/api/telegram/webhook/keyboards.ts:141-145 | the completed order's keyboard offers `archive:<id>` |
| Keyboards.ArchiveButtonUnhandled | src/app/api/telegram/webhook/route.ts:407-473 | the completed order's `archive:<id>` button reaches no branch, whether its order exists or not |
| Keyboards.RouteOfArchiveAction | src/app/api/telegram/webhook/route.ts:344-905 | a press whose action is `archive` matches no branch of the callback handler |
| Keyboards.PaymentKeyboard | src/app/api/telegram/webhook/keyboards.ts:147-154 | three rows of payment choices |
| Keyboards.PaymentTargetsOrder | src/app/api/telegram/webhook/keyboards.ts:147-154 | every payment button acts on the order it was built for |
| Keyboards.ConnectedDrivers | src/app/api/telegram/webhook/keyboards.ts:156-158 | a driver is offered exactly when it is registered and online, busy or assigned |
| Keyboards.ConnectedDriversKeyboard | src/app/api/telegram/webhook/keyboards.ts:156-167 | no connected driver gives the single "No drivers online" button; otherwise one `assign:<driver>:<order>` row per connected driver, then the back row |
| Keyboards.ConnectedDriversOffered | src/app/api/telegram/webhook/keyboards.ts:156-167 | every connected driver has an assignment button for the order |
| Keyboards.ConnectedDriversKeyboardAsWritten | src/app/api/telegram/webhook/keyboards.ts:156-167 | as written, the menu is built exactly when no driver is connected, and is then the single `none` button; it fails otherwise |
| Keyboards.AssignmentMenuFailsWithADriver | src/app/api/telegram/webhook/keyboards.ts:161 | with one online driver the menu as written fails, where the intended menu offers that driver |
| Keyboards.AssignButtonDecodes | src/app/api/telegram/webhook/keyboards.ts:160 | an assignment button decodes to the driver as sub-action and the order as entity, and reaches the assignment branch |
| Keyboards.DriverActionKeyboard | src/app/api/telegram/webhook/keyboards.ts:169-189 | the driver's keyboard is empty exactly when the order is not active |
| Keyboards.DriverActionButtons | src/app/api/telegram/webhook/keyboards.ts:169-189 | pickup is offered exactly before pickup, alone in one row; arrived, completed, location, delay and cancel request exactly after pickup or arrival, in a row of two and a row of three |
| Keyboards.DriverActionTargetsOrder | src/app/api/telegram/webhook/keyboards.ts:169-189 | every button of the driver's keyboard acts on the order it was built for |
| Keyboards.DriverEditKeyboard | src/app/api/telegram/webhook/keyboards.ts:191-195 | one row: the driver's `save` and `cancel_edit` steps for the order |
| Keyboards.CustomerPaymentKeyboard | src/app/api/telegram/webhook/keyboards.ts:197-202 | one row: `customer_pay` with `CASH` and with `QR` for the order |
| Keyboards.CustomerQRDoneKeyboard | src/app/api/telegram/webhook/keyboards.ts:204-208 | a single button, `customer_pay` with `QR_DONE` for the order |
| Keyboards.CustomerPaymentTargetsOrder | src/app/api/telegram/webhook/keyboards.ts:197-202 | the customer's cash and QR buttons act on the order they were built for |
| Keyboards.CustomerQRDoneTargetsOrder | src/app/api/telegram/webhook/keyboards.ts:204-208 | the customer's QR-done button acts on the order it was built for |
| Keyboards.CustomerPingKeyboard | src/app/api/telegram/webhook/keyboards.ts:210-214 | a single button, `customer_ping:<id>` |
| Keyboards.CustomerPingRoute | src/app/api/telegram/webhook/route.ts:370 | the ping button looks its order up and pings exactly when the order exists and has a driver |
| Keyboards.RouteOfCustomerPing | src/app/api/telegram/webhook/route.ts:370 | a decoded ping pings exactly when its order exists and has a driver, and otherwise runs nothing |
| Keyboards.LanguageKeyboard | src/app/api/telegram/webhook/keyboards.ts:216-221 | two rows, one per language |
| Keyboards.LanguageButtonsRoute | src/app/api/telegram/webhook/keyboards.ts:216-221 | both language buttons reach the language branch, with `en` and `ru` as sub-action |
| Keyboards.LanguageTokenRoute | src/app/api/telegram/webhook/route.ts:350 | any `lang:<code>` decodes without an entity and reaches the language branch |
| Keyboards.LocationRequestKeyboard | src/app/api/telegram/webhook/keyboards.ts:223-230 | a one-time resized reply keyboard with a single location-request button |
| Keyboards.DelayKeyboard | src/app/api/telegram/webhook/keyboards.ts:233-240 | four rows of delay choices |
| Keyboards.DelayTargetsOrder | src/app/api/telegram/webhook/keyboards.ts:233-240 | every delay button acts on the order it was built for |
| Keyboards.FeedbackKeyboard | src/app/api/telegram/webhook/keyboards.ts:242-250 | five buttons in one row, the k-th carrying `fb:<k>:<id>` |
| Keyboards.FeedbackButtonScores | src/app/api/telegram/webhook/route.ts:886-887 | the k-th rating button decodes to a score `parseInt` reads as k, for its order |
| Keyboards.FeedbackTokenScores | src/app/api/telegram/webhook/route.ts:886-887 | a rating token `fb:<k>:<id>` decodes to the order with a score `parseInt` reads back as k, and reaches an order branch |
| Keyboards.AdminSettingsKeyboard | src/app/api/telegram/webhook/keyboards.ts:252-268 | six rows; the language toggle offers Russian when the preference is English, unset or empty, and English otherwise |
| Keyboards.AdminLanguageToggles | src/app/api/telegram/webhook/route.ts:563-575 | the toggle sets the other language from the current one |
| Keyboards.RouteOfSetLanguage | src/app/api/telegram/webhook/route.ts:563 | `admin_set_lang_ru` and `admin_set_lang_en` set that language |
| Keyboards.ManageQRsKeyboard | src/app/api/telegram/webhook/keyboards.ts:270-283 | one row per QR code in order, then the add row and the back row |
| Keyboards.QRDeleteButtonDecodes | src/app/api/telegram/webhook/route.ts:516-523 | a QR delete button decodes to the code's id and reaches the QR branch |
| Keyboards.NoColonInNumber | src/app/api/telegram/webhook/keyboards.ts:285-316 | an admin id's rendering has no colon, so admin tokens decode |
| Keyboards.AdminRow | src/app/api/telegram/webhook/keyboards.ts:285-316 | an admin's row has a view button, and a remove button exactly when that admin is not the primary one |
| Keyboards.ManageAdminsKeyboard | src/app/api/telegram/webhook/keyboards.ts:285-316 | one row per admin, then the add row and the back row |
| Keyboards.BuildManageAdminsKeyboard | src/app/api/telegram/webhook/keyboards.ts:285-316 | the loop that builds the admin rows yields exactly the admin keyboard |
| Keyboards.ManageAdminsRemoveButtons | src/app/api/telegram/webhook/keyboards.ts:285-316 | the primary admin's row alone has no remove button; every other row's remove button decodes back to that admin's numeric id |
| Keyboards.DisconnectApprovalKeyboard | src/app/api/telegram/webhook/route.ts:303 | one row: `disconnect` with `approve` and with `deny` for the driver |
| Keyboards.DisconnectButtonsDecode | src/app/api/telegram/webhook/route.ts:303 | approve and deny decode to the driver's id and reach the disconnect branch |
| Keyboards.RouteOfDisconnect | src/app/api/telegram/webhook/route.ts:539 | every `disconnect` press reaches the disconnect branch, regardless of the order lookup |
| Keyboards.DriverPingKeyboard | src/app/api/telegram/webhook/route.ts:372 | one row: the driver's `location` and `delay` steps for the order |
| Keyboards.CancelRequestKeyboard | src/app/api/telegram/webhook/route.ts:826 | one row: the driver's `cancel_approve` and `cancel_deny` steps for the order |
| Keyboards.DriverPingTargetsOrder | src/app/api/telegram/webhook/route.ts:370-375 | the share location and delay buttons act on the order the customer pinged about |
| Keyboards.CancelRequestTargetsOrder | src/app/api/telegram/webhook/route.ts:824-829 | the approve and deny buttons act on the order the driver asked to cancel |
| Keyboards.DriverAdminRow | src/app/api/telegram/webhook/route.ts:587-592 | a driver's row offers unblock when blocked and block otherwise, and always remove |
| Keyboards.DriverAdminRows | src/app/api/telegram/webhook/route.ts:587-592 | one row per driver, in order |
| Keyboards.ManageDriversKeyboard | src/app/api/telegram/webhook/route.ts:586-596 | one row per driver, then the add-by-link, add-by-id and back rows |
| Keyboards.ShareLocationKeyboard | src/app/api/telegram/webhook/route.ts:818-820 | a one-time resized reply keyboard with a single location-request button |
| Intake.MapsLinkCoordinates | src/app/api/telegram/webhook/route.ts:127 | a location's maps link starts with the search prefix, and its query splits at the comma back into the latitude and the longitude |
| Intake.NonSpaceRun | src/app/api/telegram/webhook/route.ts:131 | `[^\s]+` is greedy: the run is non-whitespace and stops at whitespace or the end |
| Intake.SchemeAt | src/app/api/telegram/webhook/route.ts:131 | `https?://` matches `https://` when present, else `http://`, else nothing |
| Intake.FirstMatchFrom | src/app/api/telegram/webhook/route.ts:131-132 | the leftmost match position: the pattern matches there and at no earlier position; none exactly when it matches nowhere |
| Intake.MatchIsUrl | src/app/api/telegram/webhook/route.ts:131-132 | a match starts with a scheme, has something after it and contains no whitespace |
| Intake.OccurrenceMatches | src/app/api/telegram/webhook/route.ts:131-135 | wherever the matched URL occurs, the pattern also matches |
| Intake.FirstUrlOccurrence | src/app/api/telegram/webhook/route.ts:132-135 | the first occurrence of the first URL is exactly where it matched |
| Intake.FirstUrlRemoved | src/app/api/telegram/webhook/route.ts:135 | `replace(url, '')` removes exactly the matched text |
| Intake.ExtractLocation | src/app/api/telegram/webhook/route.ts:126-128 | a location wins: its maps link, with the text or else the caption as items |
| Intake.ExtractUrl | src/app/api/telegram/webhook/route.ts:129-137 | the leftmost URL becomes the link, and the text around it, trimmed, the items |
| Intake.ExtractPlainText | src/app/api/telegram/webhook/route.ts:129-137 | a text without a URL is kept whole as items, with no link |
| Intake.ExtractNothing | src/app/api/telegram/webhook/route.ts:142-144 | nothing is extracted exactly when there is no location, text or caption |
| Effects.ToAll | src/app/api/telegram/webhook/route.ts:282-287 | one identical message per admin id, in list order |
| Dispatch.CustomerNamed | src/app/api/telegram/webhook/route.ts:117 | the customer found by the forward sender's name is the first customer with that name; none exactly when no customer has it |
| Dispatch.Entries | src/app/api/telegram/webhook/route.ts:586-587 | the drivers' ids, names and statuses as the keyboards see them, one per driver in order |
| Dispatch.RemoveAtDistinct | src/app/api/telegram/webhook/route.ts:644-646 | removing a driver keeps the driver ids distinct |
| Dispatch.CustomerNotice | src/app/api/telegram/webhook/route.ts:779-784 | the customer is messaged exactly when the id is all digits, and then at the chat that `parseInt` of the id names |
| Dispatch.FeedbackNotes | src/app/api/telegram/webhook/route.ts:551-552 | at most one report line per order, none of them empty |
| Dispatch.Archived | src/app/api/telegram/webhook/route.ts:477 | the archive shows exactly the completed and cancelled orders |
| Dispatch.AdminCandidate | src/app/api/telegram/webhook/route.ts:1233-1240 | a typed id qualifies exactly when it is all digits, and yields its decimal value |
| Dispatch.RouteMessage | src/app/api/telegram/webhook/route.ts:908-1277 | a message is dropped exactly when it has no sender id; admin views and intake need an admin; session steps need a session; intake needs an order-like message; the edit step needs a session order, the QR step a photo and the location step a location |
| Dispatch.CommandOfWords | src/app/api/telegram/webhook/route.ts:1260 | a command's first word, alone or followed by arguments, is the command |
| Dispatch.NoSlashNoCommand | src/app/api/telegram/webhook/route.ts:1260-1272 | a text that does not start with `/` is never a command |
| Dispatch.RouteOutsideSteps | src/app/api/telegram/webhook/route.ts:1259-1276 | outside menu texts and session steps, only commands and intake remain |
| Dispatch.RouteCommand | src/app/api/telegram/webhook/route.ts:1259-1272 | `/start`, `/register` and `/disconnect`, alone or with arguments, run their command when no step is pending |
| Dispatch.SlashNotMenu | src/app/api/telegram/webhook/route.ts:915-1060 | a command is never an admin menu text |
| Dispatch.AddAdminStepFirst | src/app/api/telegram/webhook/route.ts:1233-1257 | a pending add-admin step takes the next message, commands included |
| Dispatch.MenuTextsFirst | src/app/api/telegram/webhook/route.ts:915-1080 | an admin's menu text is answered before any session step |
| Dispatch.RouteIntake | src/app/api/telegram/webhook/route.ts:1274-1276 | an order-like message with no step pending is taken in exactly when the sender is an admin |
| Dispatch.Customer.constructor | src/app/api/telegram/webhook/keyboards.ts:22-26 | a customer starts with its id, its name and no language |
| Dispatch.Driver.constructor | src/app/api/telegram/webhook/route.ts:100 | a new driver is offline with no current order |
| Dispatch.Order.constructor | src/app/api/telegram/webhook/route.ts:146-153 | a new order has its id, time, customer, link, status and items, and no driver, payment, amounts or feedback |
| Dispatch.World.constructor | src/app/api/telegram/webhook/route.ts:33-44 | the first configured admin is the primary one and prefers English; every table starts empty |
| Dispatch.World.FindOrder | src/app/api/telegram/webhook/route.ts:341 | the order found is the first order with the id (ids made from the clock can repeat); none exactly when no order has it |
| Dispatch.World.FindDriver | src/app/api/telegram/webhook/route.ts:97 | the driver found has the id; none exactly when no driver has it |
| Dispatch.World.FindCustomer | src/app/api/telegram/webhook/route.ts:87 | the customer found is the first customer with the id; none exactly when no customer has it |
| Dispatch.World.FindDriverOpt | src/app/api/telegram/webhook/route.ts:541 | a lookup by an id that may be absent finds a driver with that id, or none exactly when no driver has it |
| Dispatch.World.FindOrderOpt | src/app/api/telegram/webhook/route.ts:1104 | a lookup by a session's order id finds the first order with that id, or none exactly when no order has it or the session has no order id |
| Dispatch.World.SetSession | src/app/api/telegram/webhook/route.ts:61-67 | the table is the merged write, still one record per user |
| Dispatch.World.ClearSession | src/app/api/telegram/webhook/route.ts:69-74 | the user's record is gone and the others stay |
| Dispatch.World.FindOrCreateCustomer | src/app/api/telegram/webhook/route.ts:78-94 | a known user's customer is returned unchanged; an unknown user gets a new customer named by `DisplayName`, appended; a user without an id gets `User_<now>`, appended only when absent |
| Dispatch.World.FindOrCreateDriver | src/app/api/telegram/webhook/route.ts:96-104 | a known user's driver is returned with its status untouched; an unknown user gets a new offline driver, appended |
| Dispatch.World.NotifyAdmins | src/app/api/telegram/webhook/route.ts:282-287 | the loop sends the message to every admin, in order |
| Dispatch.World.Register | src/app/api/telegram/webhook/route.ts:273-280 | the user's driver exists and is online, appended only when new; the user is told and every admin hears the driver is online |
| Dispatch.World.FoundDriverIsUnique | src/app/api/telegram/webhook/route.ts:97 | with distinct ids, looking up a registered driver's id finds that driver |
| Dispatch.World.Disconnect | src/app/api/telegram/webhook/route.ts:291-321 | an unknown or offline driver is told so; a busy or assigned one stays so, the admins get approve and deny buttons and a prompt is pending; any other goes offline and the admins are told |
| Dispatch.World.OnLanguage | src/app/api/telegram/webhook/route.ts:350-362 | the presser's customer takes the language; a customer starting an online order moves on to naming the meal and is welcomed |
| Dispatch.World.OnAdminMainMenu | src/app/api/telegram/webhook/route.ts:364-368 | the pressed message is deleted and the main menu sent |
| Dispatch.World.OnAdminArchive | src/app/api/telegram/webhook/route.ts:476-490 | one card per archived order, in order, then the menu; or a single "none" message |
| Dispatch.World.OnAdminSettings | src/app/api/telegram/webhook/route.ts:492-499 | the settings screen for the presser's language preference |
| Dispatch.World.OnManageQrs | src/app/api/telegram/webhook/route.ts:501-508 | the QR screen for the current codes |
| Dispatch.World.OnAddQr | src/app/api/telegram/webhook/route.ts:510-514 | the presser's session waits for a QR photo |
| Dispatch.World.OnQrCode | src/app/api/telegram/webhook/route.ts:516-537 | delete removes exactly the code found and refreshes the screen, or reports it missing; view sends the code's photo; nothing else changes the codes |
| Dispatch.World.OnDisconnectDecision | src/app/api/telegram/webhook/route.ts:539-561 | for a known driver the pending prompt is dropped; approve and deny both take the driver offline with their reports; anything else leaves the driver's status; an unknown driver changes nothing |
| Dispatch.World.OnSetAdminLanguage | src/app/api/telegram/webhook/route.ts:563-575 | the presser's preference becomes the language and the settings keyboard shows it |
| Dispatch.World.OnManageAdmins | src/app/api/telegram/webhook/route.ts:577-584 | the admin screen for the current admin list |
| Dispatch.World.OnManageDrivers | src/app/api/telegram/webhook/route.ts:586-603 | the driver screen for the current drivers |
| Dispatch.World.OnAddAdmin | src/app/api/telegram/webhook/route.ts:605-609 | the presser's session waits for an admin id |
| Dispatch.World.OnRemoveAdmin | src/app/api/telegram/webhook/route.ts:611-625 | the primary admin cannot be removed; any other id that parses is filtered out of the admin list and the screen refreshed |
| Dispatch.World.OnDriverAdmin | src/app/api/telegram/webhook/route.ts:627-666 | block sets a found driver blocked and unblock sets it online, each telling the driver; remove splices it out; the screen refreshes after each; an unknown driver changes nothing |
| Dispatch.World.SetDriverStatus | src/app/api/telegram/webhook/route.ts:635-642 | the driver takes the status, the presser is answered, the driver told and the screen refreshed |
| Dispatch.World.RemoveDriverAt | src/app/api/telegram/webhook/route.ts:644-646 | the driver at the position is spliced out and ids stay distinct |
| Dispatch.World.OnCustomerPing | src/app/api/telegram/webhook/route.ts:370-375 | the order's driver gets the ping with its keyboard and the customer an alert |
| Dispatch.World.OnCustomerPay | src/app/api/telegram/webhook/route.ts:377-404 | cash records the method and waits for the amount; QR done marks the order paid by QR and tells the admins; QR shows the first code or reports none |
| Dispatch.World.OnGo | src/app/api/telegram/webhook/route.ts:738-753 | without a driver the admin is alerted and nothing changes; otherwise the order is active and ready and its registered driver assigned to it and sent the order |
| Dispatch.World.ShowDriverChoice | src/app/api/telegram/webhook/route.ts:425-434 | the connected-driver keyboard, as a new card or over the old one |
| Dispatch.World.DeleteOrder | src/app/api/telegram/webhook/route.ts:415-419 | the order is spliced out of the orders at its position |
| Dispatch.World.CompleteOrder | src/app/api/telegram/webhook/route.ts:456-465 | the order is completed and its registered driver online and free |
| Dispatch.World.OnOrderAction | src/app/api/telegram/webhook/route.ts:407-475 | delete, cancel, assign, change driver, go, arrived, completed and archive each do what their branch does; only delete changes the orders and only go and completed touch a driver |
| Dispatch.World.OnDetail | src/app/api/telegram/webhook/route.ts:668-677 | the order card with the action keyboard for its status |
| Dispatch.World.OnEditMenu | src/app/api/telegram/webhook/route.ts:679-685 | the edit keyboard, offering Russian when the customer has no language |
| Dispatch.World.OnEdit | src/app/api/telegram/webhook/route.ts:687-710 | a text field starts an edit session; `lang_ru` sets the customer's language; payment and driver swap the keyboard; nothing else changes |
| Dispatch.World.OnPayment | src/app/api/telegram/webhook/route.ts:712-726 | PAID marks the order paid; any other method is recorded, and cash waits for the amount |
| Dispatch.World.OnAssign | src/app/api/telegram/webhook/route.ts:728-736 | the order takes the driver exactly when that driver is registered |
| Dispatch.World.OnCancel | src/app/api/telegram/webhook/route.ts:755-759 | the order is cancelled, and nothing about its driver changes |
| Dispatch.World.OnSave | src/app/api/telegram/webhook/route.ts:761-766 | the order becomes a draft and the presser's session ends |
| Dispatch.World.OnDelay | src/app/api/telegram/webhook/route.ts:860-884 | the customer, when reachable, and the admins are told of the delay, and the driver's keyboard is restored |
| Dispatch.World.OnFeedback | src/app/api/telegram/webhook/route.ts:886-905 | a score that parses is recorded and reported to the admins and the driver; one that does not changes nothing |
| Dispatch.World.DriverPickup | src/app/api/telegram/webhook/route.ts:774-787 | the order is on its way and the driver busy; the admins and the customer are told |
| Dispatch.World.DriverArrived | src/app/api/telegram/webhook/route.ts:788-799 | the order has arrived; the customer and the admins are told |
| Dispatch.World.DriverCompleted | src/app/api/telegram/webhook/route.ts:800-812 | the order is completed and the driver online and free; the customer is asked for a rating |
| Dispatch.World.DecideCancel | src/app/api/telegram/webhook/route.ts:830-843 | approval resets the order to new with no driver; denial keeps it; the former driver hears the verdict |
| Dispatch.World.OnDriverStep | src/app/api/telegram/webhook/route.ts:768-858 | each driver step does its branch's work and changes nothing outside the order, the driver and the presser's session |
| Dispatch.World.DriverMove | src/app/api/telegram/webhook/route.ts:774-843 | pickup, arrival, completion and cancellation decisions move the order as their branches do |
| Dispatch.World.DriverPrompt | src/app/api/telegram/webhook/route.ts:813-857 | the other steps leave the order and driver alone; only `location` touches the session |
| Dispatch.World.OnSettingsText | src/app/api/telegram/webhook/route.ts:1054-1059 | the settings screen for the admin's preference |
| Dispatch.World.OnListText | src/app/api/telegram/webhook/route.ts:917-1053 | a single list message to the chat, with the main menu |
| Dispatch.World.OnNewDraft | src/app/api/telegram/webhook/route.ts:1062-1080 | a new draft order with the placeholder customer is appended, and the admin's session edits its items |
| Dispatch.World.OnOrderItems | src/app/api/telegram/webhook/route.ts:1083-1101 | a new online order with the text as items is appended for the sender's customer, and the session waits for a location |
| Dispatch.World.OnOrderLocation | src/app/api/telegram/webhook/route.ts:1103-1124 | the session's order takes the maps link and the admins are told; the session ends either way |
| Dispatch.World.OnCashGiven | src/app/api/telegram/webhook/route.ts:1126-1145 | a readable amount records cash, not yet paid, and the change against a non-zero total, then ends the session; otherwise nothing changes |
| Dispatch.World.RecordCash | src/app/api/telegram/webhook/route.ts:1129-1137 | cash, not yet paid, the amount given and the change against a non-zero total |
| Dispatch.World.EditNotice | src/app/api/telegram/webhook/route.ts:1169-1184 | only a readable total on an online order notifies the customer |
| Dispatch.World.ApplyEdit | src/app/api/telegram/webhook/route.ts:1157-1200 | the session's field alone changes: name, link and items take a non-empty text, the total and the cash given a readable amount |
| Dispatch.World.EditTotalAmount | src/app/api/telegram/webhook/route.ts:1169-1184 | the total takes a readable amount, and an online order's customer is asked to pay |
| Dispatch.World.EditCashGiven | src/app/api/telegram/webhook/route.ts:1185-1200 | `skip` leaves the cash given as it was; a readable amount is recorded with the change against a non-zero total |
| Dispatch.World.OnEditField | src/app/api/telegram/webhook/route.ts:1148-1209 | the session's order is edited and shown again; the session ends either way |
| Dispatch.World.OnQrPhoto | src/app/api/telegram/webhook/route.ts:1211-1216 | the largest size of the photo is kept and the session waits for a title |
| Dispatch.World.OnQrTitle | src/app/api/telegram/webhook/route.ts:1218-1231 | a code with the title and kept photo is appended and the session ends |
| Dispatch.World.OnAddAdminInput | src/app/api/telegram/webhook/route.ts:1233-1257 | a new id is appended, a known one reported, anything else refused; the session ends and the screen refreshes |
| Dispatch.World.HandleStart | src/app/api/telegram/webhook/route.ts:235-248 | an admin gets the panel and nothing changes; anyone else gets a customer, a session starting an online order and the language keyboard |
| Dispatch.World.ResolveCustomer | src/app/api/telegram/webhook/route.ts:116-124 | a forward's customer is the original sender's, or one named like the hidden sender, or else the forwarder's |
| Dispatch.World.CreateOrderFromForward | src/app/api/telegram/webhook/route.ts:108-159 | an order is created exactly when there is a sender and a location, text or caption; it is new, appended and built from the extraction, and the forward is deleted |
| Dispatch.World.HandleNewOrder | src/app/api/telegram/webhook/route.ts:252-271 | a non-admin is refused; for an admin the created order is shown with its action keyboard, or a failure reported |
| Dispatch.World.RunAdminScreen | src/app/api/telegram/webhook/route.ts:364-625 | the admin screen branches keep the World invariant |
| Dispatch.World.RunGeneralBranch | src/app/api/telegram/webhook/route.ts:350-666 | the branches without an order keep the World invariant; an unhandled press sends nothing and changes no table, order, driver or customer; `order_action` on an unknown order only answers "not found" and changes nothing |
| Dispatch.World.RunOrderView | src/app/api/telegram/webhook/route.ts:668-736 | the order view branches keep the World invariant |
| Dispatch.World.RunOrderStep | src/app/api/telegram/webhook/route.ts:738-905 | the order step branches keep the World invariant, and `driver:*` has the outcome of `RunDriverStep` |
| Dispatch.World.RunDriverStep | src/app/api/telegram/webhook/route.ts:768-770 | a `driver:*` press from someone who is not a registered driver sends nothing and changes nothing; from a registered driver, the step acts on that driver (not on the order's own), and no other driver, order or customer changes |
| Dispatch.World.RunBranch | src/app/api/telegram/webhook/route.ts:348-905 | the routed branch keeps the World invariant; an unhandled press and `order_action` on an unknown order change nothing; `driver:*` runs only for a registered presser and acts on that driver |
| Dispatch.World.HandleCallback | src/app/api/telegram/webhook/route.ts:324-906 | the branch taken is the router's on the state before the press; a missing payload or unhandled press is only answered and changes no table, order, driver or customer; an empty action does nothing; every other press is answered first; `order_action` on an unknown order is answered "not found" and changes nothing; a `driver:*` press from an unregistered presser is only answered, and from a registered driver acts on that driver alone |
| Dispatch.World.HandleMessage | src/app/api/telegram/webhook/route.ts:908-1277 | the branch taken is the router's on the state before the message; no sender and ignored messages send nothing and change no table, order, driver or customer; the list and settings views change none of them either |
| Dispatch.World.RunCommand | src/app/api/telegram/webhook/route.ts:1259-1276 | the commands and intake keep the World invariant |
| Dispatch.World.RunSessionStep | src/app/api/telegram/webhook/route.ts:1083-1257 | the session steps keep the World invariant |
| Scenarios.OnlyDriverWithId | src/app/api/telegram/webhook/route.ts:96-104 | with distinct ids, a registered driver is the only one its id selects |
| Scenarios.CustomerTwice | src/app/api/telegram/webhook/route.ts:78-94 | finding or creating the same user's customer twice gives one record, added at most once |
| Scenarios.DriverTwice | src/app/api/telegram/webhook/route.ts:96-104 | the same for a driver, which is offline when new and keeps its status otherwise |
| Scenarios.Delivery | src/app/api/telegram/webhook/route.ts:738-812 | go, pickup and completion take the order from ready to picked up to completed and the driver from assigned to busy to free |
| Scenarios.GoThenCancel | src/app/api/telegram/webhook/route.ts:755-759 | cancelling a dispatched order leaves its driver assigned to it |
| Scenarios.RegisterThenDisconnect | src/app/api/telegram/webhook/route.ts:273-321 | a driver who registers and disconnects is offline with no prompt pending |
| Scenarios.DisconnectApproved | src/app/api/telegram/webhook/route.ts:539-561 | a busy driver's disconnect leaves a prompt pending, and an admin's approval takes the driver offline and drops the prompt |

## Left out

- Message wording: every message is a purpose and the values it quotes. `formatOrderDetails` is the order card named by its order id, and the Russian and English variants are not kept apart.
- Inline button labels are kept without their emoji. Only a button's `callback_data` is acted on. The reply keyboard texts, which the message handler compares, are exact.
- `tgUserLink` and `statusEmoji` only build display text and are not modelled.
- Keyboards.ConnectedDriversKeyboard: the label of each driver calls the `driverStatusEmoji` stub (`keyboards.ts` 161), which throws (`keyboards.ts` 318-320). As written, the assignment menu fails whenever a driver is connected. The model builds the evident intent, the rows with the driver's name; the failure is under "## Findings".
- The declared-only globals of the keyboard module are parameters of the keyboard functions, so the model does not capture that nothing binds them in that module.
- Dispatch.World.OnListText: the DRAFT, ACTIVE, COMPLETED, Orders and DRIVERS views are one summary message with the main menu. The per-order cards and per-order buttons they send are not modelled.
- Dispatch.World.OnCashGiven, Dispatch.World.OnEditField: they take the amount already parsed. `HandleMessage` passes `ParseFloat` of the text.
- `parseFloat` is a prefix parser of digits with an optional fraction. Exponents, `Infinity` and IEEE rounding are not modelled, and amounts are exact reals.
- The disconnect prompt's one-minute repeat is not modelled. `disconnectTimers` is the set of users with a prompt pending. `setTimeout` and `clearTimeout` leave no trace beyond that set.
- The `bot.on` listeners and the HTTP handler are not modelled. Neither are the `try`/`catch` error logging and failed Bot API calls. Updates are processed one at a time to completion, so the interleavings of concurrent handlers are not modelled.
- `Date.now()` and `Math.random()` are left out. The values `now` and `orderNumber` are parameters of the handlers.
- Strings are sequences of characters, with no UTF-16 detail. `toLowerCase() === 'skip'` is modelled for the letters of `skip`, including the Kelvin sign. `\s` is the JavaScript whitespace set.
- Environment parsing of `ADMIN_USER_IDS` is left out. The constructor takes the parsed list.
- Dispatch.World.RunAdminScreen, Dispatch.World.RunGeneralBranch, Dispatch.World.RunOrderView, Dispatch.World.RunOrderStep, Dispatch.World.RunBranch, Dispatch.World.RunCommand, Dispatch.World.RunSessionStep: these sub-dispatchers promise the invariant, the no-op cases and the `driver:*` presser guard. The effect of each other branch is stated by the handler it calls.
- Dispatch.World.HandleCallback, Dispatch.World.HandleMessage: they state the routing, the invariant and the no-op branches, not each branch's outcome, which the handler for that branch states.
- Keyboards.ConnectedDriversOffered: states only that every connected driver is offered. That only connected drivers are offered is stated by `Keyboards.ConnectedDrivers`.
- Dispatch.FeedbackNotes: states the shape of the report lines, not the `N/A` rendering of a missing score.

## Findings

| source | as written | input that shows it | evidently intended | confidence | as-written member | corrected member |
|---|---|---|---|---|---|---|
| src/app/api/telegram/webhook/keyboards.ts:161 | each connected driver's label calls `driverStatusEmoji`, whose body only throws (`keyboards.ts` 318-320) | one driver with status `online`: `getConnectedDriversKeyboard` throws instead of returning a menu | one `assign:<driver>:<order>` row per connected driver, labelled with the driver's status and name, then the back row | high (reading of the code); not executed | Keyboards.AssignmentMenuFailsWithADriver | Keyboards.ConnectedDriversKeyboard |
