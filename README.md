# Account front end: validators, formatters, forms, errors and state holders

This project is a Dafny model of the logic at the centre of an Angular
account-management front end. Customers sign in through an OpenID Connect
provider and then manage their profile, addresses and payment cards. The
model covers these parts:

- **Two generations of field validators.** The older `CustomValidators` and
  the newer `pure-validators` check required fields, e-mail, phone, ZIP code,
  CVV, MM/YY expiry, lengths and unsafe text. They also check card numbers
  with the Luhn mod-10 check digit of ISO/IEC 7812-1, Annex B. Each validator
  is a function from the control's text to `Valid` or a keyed error with its
  message. The two Luhn loops are one method, proved equal to a recursive
  sum. The pure `sanitize` pattern loop is a method with an early return.
  `ValidatorGenerations` proves where the two generations agree and gives
  inputs on which they differ.
- **Display formatters** (`ui-formatters.ts`, and the copies in the
  credit-card form service). They cover card masking, grouping in fours,
  MM/YY insertion, phone and ZIP layout, truncation, name and address
  layout, and card-brand detection by prefix. The model proves what each
  output looks like, that the digits survive, and that applying a formatter
  twice gives the same result as applying it once. It also proves that
  formatted values pass the validators.
- **Form definitions and data shaping.** This covers default values, the
  conversion of form values into model records (an empty identifier becomes
  absent), and the collection of error messages over the controls. The
  collection is modelled as the nested loops the source runs.
- **Error classification.** An HTTP failure maps to a type, a severity and
  a user message by its status code, following the status codes of section
  15 of RFC 9110. The dispatch tries HTTP first, then the validation shape,
  then network, then unknown. Severity maps to a log level.
- **State holders, as classes.**
  - The notification list: show, remove by identifier, clear.
  - The customer store and the authentication store: a merge of partial
    updates, the derived selectors, and the start, success and failure
    handlers of every action.
  - The authentication service: it reconciles the OIDC client's events with
    an authentication record kept in browser storage. Its invariant is
    proved: while an exactly-true record is stored, the service reports the
    user as signed in.

Values from outside are inputs: the service answers, the OIDC client's
events and answers, the current local time, the browser's connectivity flag,
and the errors Angular has attached to each form control.

## Model

| member | source | states |
|---|---|---|
| Luhn.Contribution | src/app/shared/forms/validators/pure-validators.ts:70-76 | a digit contributes 0..9 whether doubled or not (2d or 2d-9 when doubled) |
| Luhn.LuhnChecksum | src/app/shared/forms/validators/pure-validators.ts:65-80 | the right-to-left loop computes exactly the recursive Luhn sum, and the sum lies in 0..9×length |
| Luhn.SumBounds | src/app/shared/forms/validators/pure-validators.ts:68-80 | every partial Luhn sum lies between 0 and nine times the number of digits |
| Luhn.ReplaceDigit | src/app/shared/forms/validators/custom-validators.ts:64-82 | changing one digit changes the sum by exactly the change in that digit's contribution |
| Luhn.ContributionInjective | src/app/shared/forms/validators/custom-validators.ts:68-78 | two different digits never contribute the same value at the same position |
| Luhn.SingleDigitErrorDetected | src/app/shared/forms/validators/custom-validators.ts:82 | a number passing the check fails it once any single digit is changed |
| Text.Digits | src/app/shared/forms/validators/pure-validators.ts:61 | `replace(/\D/g, '')` keeps exactly the ASCII digits, in order |
| Text.DigitsAppend | src/app/shared/forms/validators/pure-validators.ts:93 | the digit filter distributes over concatenation |
| Text.TrimShape | src/app/shared/forms/validators/pure-validators.ts:19 | the trimmed text is a contiguous part of the input with no white space at either end |
| Text.TrimEmptyIff | src/app/shared/forms/validators/pure-validators.ts:9 | a value trims to '' exactly when every character is white space |
| Text.TrimNoEdges | src/app/shared/forms/validators/pure-validators.ts:19 | a value with no white space at its ends is not changed by trimming |
| Text.JoinTrimmed | src/app/store/customer/customer.store.ts:39 | "a b" trimmed never begins or ends with white space |
| Text.JoinTrimmedEmptyIff | src/app/store/auth/auth.store.ts:44 | the joined name is empty exactly when both parts are white space only |
| Text.JoinTrimmedNoEdges | src/app/shared/forms/utils/ui-formatters.ts:101 | parts without edge white space are joined by one space, and an empty part drops out |
| Text.JoinTrimmedPrefix | src/app/store/auth/auth.store.ts:44 | a first part with no white space at its ends opens the joined name whole |
| Text.NatToString | src/app/core/error/error-handler.service.ts:86 | the decimal string of a number is all digits, with no leading zero |
| Text.ParseNatToString | src/app/core/error/error-handler.service.ts:86 | reading the decimal string back gives the number |
| Text.NatToStringInjective | src/app/core/error/error-handler.service.ts:86 | distinct numbers have distinct decimal strings |
| Text.IntToString | src/app/shared/forms/validators/pure-validators.ts:144 | the string of an integer starts with '-' exactly when the integer is negative |
| Validation.OrDefault | src/app/shared/forms/validators/pure-validators.ts:10 | `message \|\| fallback`: an empty message is replaced by the fallback |
| Validation.DefaultParam | src/app/shared/forms/validators/custom-validators.ts:6 | a default parameter replaces only a missing message, and an empty one is kept |
| Patterns.MatchesEmail | src/app/shared/forms/validators/pure-validators.ts:22 | a non-empty run of `[a-zA-Z0-9._%+-]`, an '@', a non-empty run of `[a-zA-Z0-9.-]`, a '.', and two or more letters, over the whole text, at some split the backtracking search could find |
| Patterns.MatchesPurePhone | src/app/shared/forms/validators/pure-validators.ts:36 | an optional '(', three digits, an optional ')', an optional separator, three digits, an optional separator, four digits, nothing else |
| Patterns.MatchesLegacyPhone | src/app/shared/forms/validators/custom-validators.ts:32 | an optional '+' followed by one or more digits, white space, '-', '(' or ')' |
| Patterns.IsZipShape | src/app/shared/forms/validators/pure-validators.ts:50 | five digits, or five digits, '-' and four digits |
| Patterns.IsExpiryShape | src/app/shared/forms/validators/pure-validators.ts:111 | two digits, '/', two digits, nothing else |
| Patterns.HasMarkupChar | src/app/shared/forms/validators/custom-validators.ts:181-182 | one of `<`, `>`, `"`, `'` or `&` occurs somewhere |
| Patterns.Test | src/app/shared/forms/validators/pure-validators.ts:165 | `test` of a global pattern from the start: a match of the pattern begins at some position of the text |
| Patterns.DomainShape | src/app/shared/forms/validators/pure-validators.ts:22 | a domain the e-mail pattern accepts has no '@' and contains a '.' |
| Patterns.EmailShape | src/app/shared/forms/validators/pure-validators.ts:22 | an accepted address has exactly one '@' and a '.' after it |
| Patterns.PurePhoneDigits | src/app/shared/forms/validators/pure-validators.ts:36 | a phone number the pure pattern accepts has exactly ten digits and 10 to 14 characters |
| Patterns.DropKeepsDigits | src/app/shared/forms/validators/pure-validators.ts:36 | skipping an optional separator keeps the digits |
| Patterns.ExpiryFields | src/app/shared/forms/validators/pure-validators.ts:116-117 | the month and year of an MM/YY value are read digit by digit, the year offset by 2000 |
| Patterns.FindCloseTag | src/app/shared/forms/validators/pure-validators.ts:159 | finds the first "</script>" (any case) at or after a position, or proves there is none |
| Patterns.WordRun | src/app/shared/forms/validators/pure-validators.ts:161 | the leading run of `\w` characters is maximal |
| Patterns.SpaceRun | src/app/shared/forms/validators/pure-validators.ts:161 | the leading run of `\s` characters is maximal |
| Patterns.MatchLength | src/app/shared/forms/validators/pure-validators.ts:158-162 | a match of a dangerous pattern never extends past the text |
| Patterns.RemoveAll | src/app/shared/forms/utils/ui-formatters.ts:63-66 | one left-to-right pass of a global replace never lengthens the text |
| Patterns.RemoveAllNoMatch | src/app/shared/forms/utils/ui-formatters.ts:63-66 | text without a match comes through the replace unchanged |
| Patterns.MatchNeedsStart | src/app/shared/forms/validators/pure-validators.ts:158-162 | no match starts on a character other than '<', 'j' or 'o' (any case) |
| Patterns.NoStartNoMatch | src/app/shared/forms/validators/pure-validators.ts:164-168 | text without any of those starting characters contains none of the patterns |
| Calendar.DaysInMonth | src/app/shared/forms/validators/pure-validators.ts:127 | a month of the Gregorian calendar has 28 to 31 days |
| Calendar.EndOfMonth | src/app/shared/forms/validators/pure-validators.ts:124-127 | `new Date(y, m-1, 1)` moved to day 0 of the next month is the last day of month m at midnight |
| PureValidators.Required | src/app/shared/forms/validators/pure-validators.ts:7-14 | valid exactly when the value has a character that is not white space; otherwise the keyed message |
| PureValidators.Email | src/app/shared/forms/validators/pure-validators.ts:17-28 | valid exactly when the trimmed value is blank or matches `local@domain.tld` |
| PureValidators.Phone | src/app/shared/forms/validators/pure-validators.ts:31-42 | valid exactly when blank or the trimmed value matches the pattern; an accepted value has ten digits |
| PureValidators.ZipCode | src/app/shared/forms/validators/pure-validators.ts:45-56 | valid exactly when blank or the trimmed value is "ddddd" or "ddddd-dddd" |
| PureValidators.CreditCard | src/app/shared/forms/validators/pure-validators.ts:59-88 | valid exactly when the value has no digits, or its digits number 13 to 19 and pass the Luhn check |
| PureValidators.Cvv | src/app/shared/forms/validators/pure-validators.ts:91-102 | valid exactly when the value has 0, 3 or 4 digits |
| PureValidators.CardExpiration | src/app/shared/forms/validators/pure-validators.ts:105-135 | blank is valid; otherwise each of the three messages for exactly its condition (not MM/YY, month outside 1..12, the month's last day at midnight already past) |
| PureValidators.MinLength | src/app/shared/forms/validators/pure-validators.ts:138-149 | valid exactly when blank or the trimmed length is at least `min`; the message names `min` |
| PureValidators.Sanitize | src/app/shared/forms/validators/pure-validators.ts:152-172 | the pattern loop returns invalid exactly when the trimmed, non-blank value contains a script tag, a `javascript:` scheme or an `on…=` handler |
| CustomValidators.Required | src/app/shared/forms/validators/custom-validators.ts:6-13 | valid exactly when the value has a character that is not white space |
| CustomValidators.Email | src/app/shared/forms/validators/custom-validators.ts:16-25 | valid exactly when empty or the untrimmed value matches the e-mail pattern |
| CustomValidators.Phone | src/app/shared/forms/validators/custom-validators.ts:28-37 | valid exactly when empty or an optional '+' followed by digits, white space, '-', '(' and ')' |
| CustomValidators.ZipCode | src/app/shared/forms/validators/custom-validators.ts:40-49 | valid exactly when empty or the untrimmed value is "ddddd" or "ddddd-dddd" |
| CustomValidators.DropSpacesAndDashes | src/app/shared/forms/validators/custom-validators.ts:57 | the cleaned value holds no white space and no '-', and is no longer than the input |
| CustomValidators.DropKeepsDigits | src/app/shared/forms/validators/custom-validators.ts:57 | the cleaning keeps every digit, in order |
| CustomValidators.DropKeepsOthers | src/app/shared/forms/validators/custom-validators.ts:57-62 | any other character survives the cleaning, so it then fails the all-digits test |
| CustomValidators.CreditCard | src/app/shared/forms/validators/custom-validators.ts:52-84 | valid exactly when empty, or the cleaned value is 13 to 19 digits that pass the Luhn loop |
| CustomValidators.CardExpiration | src/app/shared/forms/validators/custom-validators.ts:87-112 | valid exactly when empty, or MM/YY with month 1..12 and (2000+YY, month) not before the current year and month |
| CustomValidators.Cvv | src/app/shared/forms/validators/custom-validators.ts:115-124 | valid exactly when empty or 3 or 4 characters, all digits |
| CustomValidators.MinLength | src/app/shared/forms/validators/custom-validators.ts:127-136 | valid exactly when empty or the raw length is at least `min`; the error records `min` |
| CustomValidators.MaxLength | src/app/shared/forms/validators/custom-validators.ts:139-148 | valid exactly when empty or the raw length is at most `max`; the error records `max` |
| CustomValidators.MatchField | src/app/shared/forms/validators/custom-validators.ts:163-173 | invalid exactly when there is a parent, it has the named control, and the values differ |
| CustomValidators.Sanitize | src/app/shared/forms/validators/custom-validators.ts:176-186 | invalid exactly when the value contains one of < > " ' & |
| ValidatorGenerations.LegacyCardAcceptedByPure | src/app/shared/forms/validators/custom-validators.ts:52-84 | every card number the older validator accepts, the newer one accepts too |
| ValidatorGenerations.DigitlessCardOnlyPure | src/app/shared/forms/validators/pure-validators.ts:61-62 | a value with letters but no digits passes the newer card check and fails the older one |
| ValidatorGenerations.ExpiryRulesCompared | src/app/shared/forms/validators/pure-validators.ts:123-131 | for a real calendar time, expired under the newer rule means before the current month, or the same month after midnight of its last day |
| ValidatorGenerations.CardExpirationGenerations | src/app/shared/forms/validators/custom-validators.ts:91-110 | on untrimmed-equal input, the two expiry validators agree except on the last day of the expiry month |
| ValidatorGenerations.LastDayWitness | src/app/shared/forms/validators/pure-validators.ts:129-131 | "12/25" at noon on 31 December 2025 is a well-formed month on the last day of its expiry month, after midnight, so the two generations disagree on it |
| ValidatorGenerations.LastDayDisagreement | src/app/shared/forms/validators/pure-validators.ts:129-131 | on the last day of the expiry month after midnight, the newer validator says "Card has expired" while the older one accepts |
| ValidatorGenerations.EmailGenerations | src/app/shared/forms/validators/custom-validators.ts:16-25 | on a value without surrounding white space the two e-mail validators agree |
| ValidatorGenerations.EmailHasNoEdges | src/app/shared/forms/validators/pure-validators.ts:22 | an accepted address neither begins nor ends with white space |
| Patterns.EmailEnds | src/app/shared/forms/validators/pure-validators.ts:22 | an accepted address begins with a local-part character and ends with a letter |
| ValidatorGenerations.LeadingSpaceNotEmail | src/app/shared/forms/validators/custom-validators.ts:21 | no text beginning with white space matches the e-mail pattern |
| ValidatorGenerations.EmailSurroundingSpace | src/app/shared/forms/validators/pure-validators.ts:19-22 | " " + address is accepted by the newer validator and refused by the older one |
| ValidatorGenerations.JavascriptSchemeGenerations | src/app/shared/forms/validators/pure-validators.ts:160 | any text starting with `javascript:` in any letter case, with no markup character, is refused by the newer sanitize and accepted by the older one |
| ValidatorGenerations.MarkupGenerations | src/app/shared/forms/validators/custom-validators.ts:181 | a short tag such as `<b>` (under seven characters, no second `<`, no `j` or `o`) is refused by the older sanitize and accepted by the newer one |
| UiFormatters.MaskCardNumber | src/app/shared/forms/utils/ui-formatters.ts:5-9 | fewer than four characters come back unchanged; otherwise the fixed 15-character mask followed by exactly the last four |
| UiFormatters.MaskShowsOnlyLastFour | src/app/shared/forms/utils/ui-formatters.ts:5-9 | numbers with the same last four characters mask identically |
| UiFormatters.MaskIdempotent | src/app/shared/forms/utils/ui-formatters.ts:5-9 | masking a masked number changes nothing |
| UiFormatters.GroupDigits | src/app/shared/forms/utils/ui-formatters.ts:14-18 | digits in groups of four: a space exactly at every fifth position, nothing but digits elsewhere, no leading or trailing space |
| UiFormatters.GroupDigitsKeepsDigits | src/app/shared/forms/utils/ui-formatters.ts:14-18 | removing the spaces gives back the digits grouped |
| UiFormatters.FormatCardNumber | src/app/shared/forms/utils/ui-formatters.ts:11-19 | the output's digits are the input's digits, with a space exactly at every fifth position |
| UiFormatters.FormatCardNumberIdempotent | src/app/shared/forms/utils/ui-formatters.ts:11-19 | formatting twice is formatting once |
| UiFormatters.FormatExpiration | src/app/shared/forms/utils/ui-formatters.ts:21-31 | the bare digits when fewer than two; otherwise two digits, '/', then the next digits up to the fourth, so the digits read back are the first four of the input; MM/YY once four digits are present |
| UiFormatters.DigitsKeptAroundSeparator | src/app/shared/forms/utils/ui-formatters.ts:28 | a separator that is not a digit, such as the '/' of an expiry or the '-' of a ZIP+4, leaves the digits around it |
| UiFormatters.FormatExpirationIdempotent | src/app/shared/forms/utils/ui-formatters.ts:21-31 | formatting twice is formatting once |
| UiFormatters.FormatPhone | src/app/shared/forms/utils/ui-formatters.ts:33-43 | exactly ten digits become "(ddd) ddd-dddd": 14 characters with '(', ')', ' ' and '-' at positions 0, 4, 5 and 9 and the input's digits, in order, everywhere else; any other input is returned as it was |
| UiFormatters.PhoneLayoutDigits | src/app/shared/forms/utils/ui-formatters.ts:38-39 | the digits of "(ddd) ddd-dddd" are the ten digits laid out |
| UiFormatters.FormattedPhoneAccepted | src/app/shared/forms/utils/ui-formatters.ts:33-43 | a formatted ten-digit phone number matches both validators' phone patterns |
| UiFormatters.FormatPhoneIdempotent | src/app/shared/forms/utils/ui-formatters.ts:33-43 | formatting twice is formatting once |
| UiFormatters.FormatZipCode | src/app/shared/forms/utils/ui-formatters.ts:45-57 | up to five digits as they are; six to nine as five digits, '-', the rest; more than nine returned unchanged |
| UiFormatters.FormattedZipAccepted | src/app/shared/forms/utils/ui-formatters.ts:45-57 | a formatted five- or nine-digit ZIP code has the shape both ZIP validators accept |
| UiFormatters.FormatZipCodeIdempotent | src/app/shared/forms/utils/ui-formatters.ts:45-57 | formatting twice is formatting once |
| UiFormatters.SanitizeForDisplay | src/app/shared/forms/utils/ui-formatters.ts:60-68 | the three patterns removed in order and the result trimmed: never longer than the input, never beginning or ending with white space |
| UiFormatters.SanitizeHarmlessText | src/app/shared/forms/utils/ui-formatters.ts:60-68 | text without any of the patterns is only trimmed |
| UiFormatters.SlicePrefix | src/app/shared/forms/utils/ui-formatters.ts:73 | `slice(0, end)`, with a negative end counted from the end of the text |
| UiFormatters.TruncateText | src/app/shared/forms/utils/ui-formatters.ts:71-74 | text within the limit, or empty, is unchanged; otherwise the first limit-3 characters and "...", exactly `maxLength` long when `maxLength` ≥ 3, and below 3 the negative slice end counts from the end of the text |
| UiFormatters.TruncateBelowThree | src/app/shared/forms/utils/ui-formatters.ts:73 | with a limit below three the negative slice end counts from the end: "abcdef" at 0 gives "abc..." |
| UiFormatters.FormatName | src/app/shared/forms/utils/ui-formatters.ts:100-102 | the full name never begins or ends with white space |
| UiFormatters.FormatNameParts | src/app/shared/forms/utils/ui-formatters.ts:100-102 | two surviving names are joined by exactly one space; when one is sanitized away the other is the whole name |
| UiFormatters.NonEmpty | src/app/shared/forms/utils/ui-formatters.ts:94 | `filter(Boolean)` leaves only non-empty parts |
| UiFormatters.CityLine | src/app/shared/forms/utils/ui-formatters.ts:93 | the "city, state zip" line is never empty |
| UiFormatters.FormatAddress | src/app/shared/forms/utils/ui-formatters.ts:83-97 | each present line followed by ", ", then the city line |
| UiFormatters.AddressLayout | src/app/shared/forms/utils/ui-formatters.ts:94-96 | joining the non-empty parts with ", " is each present line with its separator, then the city line |
| UiFormatters.DetectCardType | src/app/shared/forms/utils/ui-formatters.ts:105-121 | the brand for exactly its prefix, tested in order 4, 51-55, 34/37, 6011/65, else "unknown" |
| UiFormatters.DetectCardTypeOnDigits | src/app/shared/forms/utils/ui-formatters.ts:106 | the brand depends only on the digits, so formatting keeps it |
| UiFormatters.GetCardDisplayName | src/app/shared/forms/utils/ui-formatters.ts:124-134 | "visa", "mastercard", "amex" and "discover" show as 'Visa', 'Mastercard', 'American Express' and 'Discover'; every other string shows as "Card" |
| UiFormatters.DisplayNameOfDetected | src/app/shared/forms/utils/ui-formatters.ts:105-134 | a detected brand shows as "Card" exactly when it is "unknown" |
| Forms.EntryMessages | src/app/shared/forms/config/form-configs.ts:214-218 | the messages of a control's errors, none of them empty |
| Forms.Messages | src/app/shared/forms/config/form-configs.ts:210-221 | the messages of all controls, none of them empty |
| Forms.EntryMessagesAppend | src/app/shared/forms/config/form-configs.ts:214-218 | messages keep the order of the error entries |
| Forms.MessagesAppend | src/app/shared/forms/config/form-configs.ts:210-221 | messages come control by control, in control order |
| Forms.EntryMessageKept | src/app/shared/forms/config/form-configs.ts:215-217 | every entry that has a message contributes it |
| Forms.MessagesEmptyIffValid | src/app/shared/forms/config/form-configs.ts:227-230 | when every entry has a message, no messages means no invalid control |
| Forms.CollectErrors | src/app/shared/forms/config/form-configs.ts:207-224 | the nested loops collect exactly the messages of an invalid form, in order, and none for a valid one |
| FormConfigs.GetCustomerFormConfig | src/app/shared/forms/config/form-configs.ts:45-79 | six fields holding the customer's values, '' for absent ones, all '' without a customer |
| FormConfigs.GetAddressFormConfig | src/app/shared/forms/config/form-configs.ts:82-142 | 'shipping' as the address type, not default, every other field '' |
| FormConfigs.GetCreditCardFormConfig | src/app/shared/forms/config/form-configs.ts:145-186 | 'visa' as the card type, not default, every other field '' |
| FormConfigs.CustomerConfigWellFormed | src/app/shared/forms/config/form-configs.ts:46-58 | the identifier is unvalidated, `required` comes first and every message is configured |
| FormConfigs.AddressConfigWellFormed | src/app/shared/forms/config/form-configs.ts:83-90 | the identifier and the default flag are unvalidated, `required` first, every message configured |
| FormConfigs.CardConfigWellFormed | src/app/shared/forms/config/form-configs.ts:146-153 | the identifier and the default flag are unvalidated, `required` first, every message configured |
| FormConfigs.CreateCustomerFromForm | src/app/shared/forms/config/form-configs.ts:189-194 | the form's fields, with the three lists always empty |
| FormConfigs.IdOrAbsent | src/app/shared/forms/config/form-configs.ts:198 | an empty identifier becomes absent; any other is kept |
| FormConfigs.CreateAddressFromForm | src/app/shared/forms/config/form-configs.ts:196-199 | the empty identifier becomes absent and every other field is kept |
| FormConfigs.CreateCreditCardFromForm | src/app/shared/forms/config/form-configs.ts:201-204 | the empty identifier becomes absent and every other field is kept |
| FormConfigs.CardRoundTrip | src/app/shared/forms/config/form-configs.ts:201-204 | a card turned into form values and back is the same card |
| FormConfigs.ExtractFormErrors | src/app/shared/forms/config/form-configs.ts:207-224 | [] unless the form is invalid, then the non-empty messages in control order |
| FormConfigs.ValidateForm | src/app/shared/forms/config/form-configs.ts:227-230 | valid exactly when no control is invalid; valid implies no errors |
| CreditCardForm.MaskCardNumber | src/app/shared/forms/controls/credit-card-form.service.ts:78-82 | short input unchanged, otherwise the fixed mask and the last four characters |
| CreditCardForm.FormatCardNumber | src/app/shared/forms/controls/credit-card-form.service.ts:84-92 | equal to the shared formatter: digits in groups of four with a space only before a following digit, so exactly `n + (n-1)/4` characters for `n` digits and '' without digits; removing the spaces gives the input's digits |
| CreditCardForm.FormatExpiration | src/app/shared/forms/controls/credit-card-form.service.ts:94-104 | the same result as the shared formatter: the first two digits, '/' and the next up to two digits when there are two, else the bare digits |
| CreditCardForm.GetCreditCardFormData | src/app/shared/forms/controls/credit-card-form.service.ts:36-42 | an empty card identifier becomes absent; every other field is copied |
| CreditCardForm.ValidateCreditCardForm | src/app/shared/forms/controls/credit-card-form.service.ts:44-64 | valid exactly when no control is invalid, and then no errors; otherwise the messages in control order |
| CreditCardForm.InvalidWithoutMessage | src/app/shared/forms/controls/credit-card-form.service.ts:16-17 | a card type failing Angular's own `required` makes the form invalid with no message collected |
| CreditCardForm.NoMessages | src/app/shared/forms/controls/credit-card-form.service.ts:48-56 | entries without messages contribute nothing |
| CreditCardForm.ResetValue | src/app/shared/forms/controls/credit-card-form.service.ts:67-75 | 'visa', not default, every other field '' |
| CreditCardForm.ResetMatchesConfig | src/app/shared/forms/controls/credit-card-form.service.ts:66-76 | the reset writes the card form definition's defaults |
| CreditCardForm.InitialValue | src/app/shared/forms/controls/credit-card-form.service.ts:12-34 | the defaults without a card; for a partial card, each carried text property or '', the card type or 'visa' when absent or empty, and the default flag only when it is `true` |
| CreditCardForm.EmptyCardIsDefault | src/app/shared/forms/controls/credit-card-form.service.ts:12-34 | a partial card carrying no property opens the form exactly as no card does |
| CreditCardForm.EditUnchangedRoundTrip | src/app/shared/forms/controls/credit-card-form.service.ts:12-42 | opening a card in the form and submitting it unedited gives back the same card |
| CreditCardForm.CardFormGroup.constructor | src/app/shared/forms/controls/credit-card-form.service.ts:12-34 | a pristine, untouched form holding the card's values or the defaults |
| CreditCardForm.CardFormGroup.Reset | src/app/shared/forms/controls/credit-card-form.service.ts:66-76 | the default values again, pristine and untouched |
| ErrorHandling.HandleHttpError | src/app/core/error/error-handler.service.ts:28-91 | type, severity and user message are those the status switch picks; the message is the response's; the code reads back as the status; the details are the response |
| ErrorHandling.ClassifyStatus | src/app/core/error/error-handler.service.ts:41-79 | 400/422 VALIDATION MEDIUM, 401/403 AUTHENTICATION HIGH, 404 NOT_FOUND MEDIUM, 500/502/503/504 SERVER_ERROR HIGH, everything else NETWORK MEDIUM (never UNKNOWN), each with its user message |
| ErrorHandling.HandleValidationError | src/app/core/error/error-handler.service.ts:93-103 | VALIDATION, MEDIUM, 'Validation failed' |
| ErrorHandling.HandleNetworkError | src/app/core/error/error-handler.service.ts:105-115 | NETWORK, MEDIUM, 'Network error' |
| ErrorHandling.HandleUnknownError | src/app/core/error/error-handler.service.ts:117-127 | UNKNOWN, MEDIUM; the value's own non-empty message, else 'An unexpected error occurred' |
| ErrorHandling.IsValidationError | src/app/core/error/error-handler.service.ts:129-135 | a truthy non-HTTP value with truthy `validationErrors` or `fieldErrors`, or an array with an element whose `field` is truthy |
| ErrorHandling.IsNetworkError | src/app/core/error/error-handler.service.ts:137-144 | a truthy non-HTTP value named 'NetworkError', whose message contains 'NetworkError' or 'Failed to fetch', or any truthy value while the browser is offline |
| ErrorHandling.HandleError | src/app/core/error/error-handler.service.ts:10-26 | HTTP first, then the validation shape, then network, then unknown |
| ErrorHandling.UnknownIffUnrecognised | src/app/core/error/error-handler.service.ts:13-25 | UNKNOWN exactly when the value is neither HTTP nor of the validation or network shape |
| ErrorHandling.ValidationBeforeNetwork | src/app/core/error/error-handler.service.ts:17-23 | a validation shape is VALIDATION even while offline |
| ErrorHandling.OfflineIsNetwork | src/app/core/error/error-handler.service.ts:137-143 | while offline every truthy non-HTTP, non-validation value is NETWORK |
| ErrorHandling.FalsyIsUnknown | src/app/core/error/error-handler.service.ts:129-144 | a falsy thrown value is UNKNOWN with the fixed message, whatever the connectivity |
| ErrorHandling.CodeIdentifiesStatus | src/app/core/error/error-handler.service.ts:86 | different statuses give different codes |
| ErrorHandling.GetLogLevel | src/app/core/error/error-handler.service.ts:167-177 | CRITICAL and HIGH log as errors, MEDIUM as warnings, LOW as plain logs |
| ErrorHandling.HandledErrorsAreLogged | src/app/core/error/error-handler.service.ts:151-177 | a handled error is never a plain log; it is an error exactly for 401, 403 and the four server statuses |
| ErrorHandling.InterceptorNotifications | src/app/core/error/error.interceptor.ts:29-36 | at most one notification, and one exactly for a status of 400 or more |
| ErrorHandling.GlobalNotifies | src/app/core/error/global-error-handler.ts:19 | the global handler shows a notification exactly for CRITICAL and HIGH errors |
| ErrorHandling.GlobalNotifyImpliesInterceptor | src/app/core/error/global-error-handler.ts:19 | as a relation between the two rules: every status whose classified error is HIGH or CRITICAL is one the interceptor's rule announces (status 400 or more) |
| Notifications.IdFor | src/app/core/notification/notification.service.ts:82-84 | every identifier starts with "notification-" |
| Notifications.IdForInjective | src/app/core/notification/notification.service.ts:82-84 | distinct counters give distinct identifiers |
| Notifications.Without | src/app/core/notification/notification.service.ts:72-76 | no entry left has the removed identifier |
| Notifications.WithoutMembers | src/app/core/notification/notification.service.ts:73-75 | exactly the entries with another identifier stay |
| Notifications.WithoutIdempotent | src/app/core/notification/notification.service.ts:72-76 | removing twice is removing once |
| Notifications.WithoutUnknown | src/app/core/notification/notification.service.ts:72-76 | an unknown identifier leaves the list unchanged |
| Notifications.WithoutUnique | src/app/core/notification/notification.service.ts:72-76 | removal keeps identifiers unique |
| Notifications.WithoutPresentUnique | src/app/core/notification/notification.service.ts:72-76 | with unique identifiers, removing a present one takes away exactly one entry |
| Notifications.ShownThenRemoved | src/app/core/notification/notification.service.ts:55-76 | removing a notification just shown gives back the list as it was |
| Notifications.NotificationService.constructor | src/app/core/notification/notification.service.ts:16 | an empty list |
| Notifications.NotificationService.AddNotification | src/app/core/notification/notification.service.ts:55-62 | exactly one entry with a fresh identifier appended, the earlier ones unchanged and in order |
| Notifications.NotificationService.ShowSuccess | src/app/core/notification/notification.service.ts:19-26 | a success entry with the message and title as given, 3000 ms unless told otherwise |
| Notifications.NotificationService.ShowError | src/app/core/notification/notification.service.ts:28-35 | an error entry, 5000 ms unless told otherwise |
| Notifications.NotificationService.ShowWarning | src/app/core/notification/notification.service.ts:37-44 | a warning entry, 4000 ms unless told otherwise |
| Notifications.NotificationService.ShowInfo | src/app/core/notification/notification.service.ts:46-53 | an info entry, 3000 ms unless told otherwise |
| Notifications.NotificationService.RemoveNotification | src/app/core/notification/notification.service.ts:72-76 | the list without the entries of that identifier, the others in order |
| Notifications.NotificationService.ClearAll | src/app/core/notification/notification.service.ts:78-80 | an empty list |
| Lists.Filter | src/app/store/customer/customer.store.ts:170-172 | the kept elements all pass the test |
| Lists.FilterMembers | src/app/store/customer/customer.store.ts:238-240 | exactly the elements passing the test are kept |
| Lists.FilterAppend | src/app/store/customer/customer.store.ts:170-172 | filtering keeps the order of the elements |
| Lists.FilterAllKept | src/app/core/notification/notification.service.ts:73-75 | a list whose every element passes is unchanged |
| Lists.FilterIdempotent | src/app/core/notification/notification.service.ts:73-75 | filtering twice is filtering once |
| Lists.FindFirst | src/app/store/customer/customer.store.ts:44-49 | the index of the first element passing the test, or none when no element does |
| Lists.Find | src/app/store/customer/customer.store.ts:44-49 | the first element passing the test, or none exactly when no element does |
| CustomerStores.Merge | src/app/store/customer/customer.store.ts:262-264 | the properties the update mentions are replaced, the others kept |
| CustomerStores.MergeThen | src/app/store/customer/customer.store.ts:262-264 | two updates in a row are one update in which the later wins |
| CustomerStores.MergeIdempotent | src/app/store/customer/customer.store.ts:262-264 | the same update twice is the update once; the empty update changes nothing |
| CustomerStores.HasCustomer | src/app/store/customer/customer.store.ts:36 | a customer is loaded |
| CustomerStores.CustomerName | src/app/store/customer/customer.store.ts:37-40 | '' without a customer; the name never begins or ends with white space |
| CustomerStores.CustomerNameEmpty | src/app/store/customer/customer.store.ts:37-40 | the name is empty exactly when there is no customer or both parts are blank |
| CustomerStores.CustomerNameStartsWithFirstName | src/app/store/customer/customer.store.ts:37-40 | a first name without edge white space opens the name |
| CustomerStores.CustomerEmail | src/app/store/customer/customer.store.ts:41 | the e-mail, '' when absent |
| CustomerStores.Addresses | src/app/store/customer/customer.store.ts:42 | the addresses, [] when absent |
| CustomerStores.CreditCards | src/app/store/customer/customer.store.ts:43 | the cards, [] when absent |
| CustomerStores.DefaultAddress | src/app/store/customer/customer.store.ts:44-46 | the first address marked default, none exactly when no address is |
| CustomerStores.DefaultCreditCard | src/app/store/customer/customer.store.ts:47-49 | the first card marked default, none exactly when no card is |
| CustomerStores.DefaultAddressUnique | src/app/store/customer/customer.store.ts:44-46 | with one address marked default, that one is the default |
| CustomerStores.AddressesWithout | src/app/store/customer/customer.store.ts:170-172 | exactly the addresses with another identifier stay; one without an identifier always stays |
| CustomerStores.CardsWithout | src/app/store/customer/customer.store.ts:238-240 | exactly the cards with another identifier stay |
| CustomerStores.AddressesWithoutKeepsOrder | src/app/store/customer/customer.store.ts:170-172 | the remaining addresses keep their order |
| CustomerStores.CardsWithoutKeepsOrder | src/app/store/customer/customer.store.ts:238-240 | the remaining cards keep their order |
| CustomerStores.AddressesWithoutUnknown | src/app/store/customer/customer.store.ts:170-172 | an identifier no address has leaves the list unchanged |
| CustomerStores.NewCustomerFromAuth | src/app/store/customer/customer.store.ts:74-88 | a record only for a non-empty e-mail claim: no identifier, user name from the preferred name else the e-mail, empty phone and lists |
| CustomerStores.FailureMessage | src/app/store/customer/customer.store.ts:65-70 | every failure message starts "Failed to " |
| CustomerStores.FailureMessageInjective | src/app/store/customer/customer.store.ts:65-253 | each action fails with a message of its own |
| CustomerStores.CustomerStore.constructor | src/app/store/customer/customer.store.ts:22-26 | no customer, not loading, no error |
| CustomerStores.CustomerStore.SetState | src/app/store/customer/customer.store.ts:262-264 | the update merged into the state |
| CustomerStores.CustomerStore.LoadCustomer | src/app/store/customer/customer.store.ts:52-55 | nothing for an empty e-mail; otherwise loading with the error cleared |
| CustomerStores.CustomerStore.OnLoadCustomerSuccess | src/app/store/customer/customer.store.ts:58-64 | a found customer is stored and loading ends; otherwise the state is kept and the record to create is returned |
| CustomerStores.CustomerStore.OnCreateCustomerSuccess | src/app/store/customer/customer.store.ts:91-94 | the saved customer is stored, loading ends, one success notice |
| CustomerStores.CustomerStore.UpdateCustomer | src/app/store/customer/customer.store.ts:104-105 | loading with the error cleared |
| CustomerStores.CustomerStore.OnUpdateCustomerSuccess | src/app/store/customer/customer.store.ts:108-111 | the updated customer is stored, loading ends, one success notice |
| CustomerStores.CustomerStore.StartAddition | src/app/store/customer/customer.store.ts:121-125 | nothing without a customer identifier; otherwise loading, and the e-mail to reload with is captured |
| CustomerStores.CustomerStore.OnAdditionSuccess | src/app/store/customer/customer.store.ts:128-132 | the captured e-mail is reloaded (nothing when empty) and the addition announced |
| CustomerStores.CustomerStore.StartChange | src/app/store/customer/customer.store.ts:142-143 | loading with the error cleared |
| CustomerStores.CustomerStore.OnUpdateSuccess | src/app/store/customer/customer.store.ts:146-153 | the current customer reloaded when it has an e-mail, the update announced either way |
| CustomerStores.CustomerStore.OnDeleteAddressSuccess | src/app/store/customer/customer.store.ts:167-179 | with an address list: those addresses removed, other fields kept, loading ends, one notice; otherwise nothing changes |
| CustomerStores.CustomerStore.OnDeleteCreditCardSuccess | src/app/store/customer/customer.store.ts:235-247 | with a card list: those cards removed, other fields kept, loading ends, one notice; otherwise nothing changes |
| CustomerStores.CustomerStore.OnFailure | src/app/store/customer/customer.store.ts:65-70 | loading ends and the action's failure message is the error; the customer is kept |
| CustomerStores.CustomerStore.ClearError | src/app/store/customer/customer.store.ts:257-259 | only the error is reset |
| Auth.HasPersistedAuthState | src/app/auth/auth.service.ts:70-81 | a stored entry that parses into a record whose `isAuthenticated` is exactly `true`; an absent or unreadable entry gives false |
| Auth.LoadPersistedAuthState | src/app/auth/auth.service.ts:88-102 | signed in, with the stored claims, exactly when a readable record has a truthy flag; defaults otherwise |
| Auth.PersistAuthState | src/app/auth/auth.service.ts:104-121 | writes an exactly-true record only while signed in; never stores a signed-out state |
| Auth.OnAuthenticatedEvent | src/app/auth/auth.service.ts:37-51 | `true` signs in; `false` signs out and removes the record unless an exactly-true record is stored |
| Auth.OnUserDataEvent | src/app/auth/auth.service.ts:54-62 | claims are taken and persisted when present or signed out; otherwise nothing changes |
| Auth.Logout | src/app/auth/auth.service.ts:128-147 | the record removed, signed out, no claims |
| Auth.TransitionsKeepConsistent | src/app/auth/auth.service.ts:37-147 | every transition keeps "exactly-true record stored implies signed in" |
| Auth.PersistedSessionSurvivesFalse | src/app/auth/auth.service.ts:42-50 | a stored session survives the client reporting `false` |
| Auth.ReloadRestoresPersisted | src/app/auth/auth.service.ts:88-121 | a session persisted while signed in comes back after a reload with the same claims |
| Auth.ReloadAfterLogout | src/app/auth/auth.service.ts:88-147 | after signing out and reloading the user is signed out |
| Auth.TokenOrEmpty | src/app/auth/auth.service.ts:149-159 | a missing token becomes '' |
| Auth.FirstWord | src/app/auth/auth.service.ts:30 | `split(' ')[0]`: the prefix up to the first space, which it does not contain |
| Auth.UserFirstName | src/app/auth/auth.service.ts:30 | the given name if non-empty, else the first word of the name if non-empty, else 'User' |
| Auth.LeadingSpaceNameIsUser | src/app/auth/auth.service.ts:30 | a name beginning with a space, without a given name, greets as 'User' |
| Auth.CheckAuthDecision | src/app/auth/auth.service.ts:161-208 | on a callback the client's answer (false on error); otherwise true when signed in or the client answers true |
| Auth.UnconsultedClientIgnored | src/app/auth/auth.service.ts:186-193 | without a callback a signed-in user is allowed whatever the client would say |
| Auth.CallbackFailureDenies | src/app/auth/auth.service.ts:171-182 | a failed callback denies even a signed-in user |
| Auth.AuthService.constructor | src/app/auth/auth.service.ts:32-35 | the state restored from the given storage entry, consistent |
| Auth.AuthService.AuthenticatedChanged | src/app/auth/auth.service.ts:37-51 | the authentication event applied, the invariant kept |
| Auth.AuthService.UserDataChanged | src/app/auth/auth.service.ts:54-62 | the claims event applied, the invariant kept |
| Auth.AuthService.PersistState | src/app/auth/auth.service.ts:104-121 | the state persisted as `PersistAuthState` says |
| Auth.AuthService.SignOut | src/app/auth/auth.service.ts:128-147 | server logout exactly when there is an ID token; the local state cleared either way |
| Auth.AuthService.CheckAuth | src/app/auth/auth.service.ts:161-208 | answers as the decision says, from the current sign-in state |
| AuthStores.Merge | src/app/store/auth/auth.store.ts:91-93 | the properties the update mentions are replaced, the others kept |
| AuthStores.MergeIdempotent | src/app/store/auth/auth.store.ts:91-93 | the same update twice is the update once; the empty update changes nothing |
| AuthStores.FirstName | src/app/store/auth/auth.store.ts:34-37 | the given name if non-empty, else the first word of the name if non-empty, else 'User' |
| AuthStores.UserEmail | src/app/store/auth/auth.store.ts:38 | the e-mail claim, '' when absent |
| AuthStores.UserRoles | src/app/store/auth/auth.store.ts:46 | the roles claim, [] when absent |
| AuthStores.UserFullName | src/app/store/auth/auth.store.ts:39-45 | '' without claims; the trimmed "given family" when not blank; otherwise the name claim or '' |
| AuthStores.FirstNameOpensFullName | src/app/store/auth/auth.store.ts:34-45 | a given name without edge white space is the greeting and opens the full name |
| AuthStores.AuthStore.constructor | src/app/store/auth/auth.store.ts:20-25 | signed out, no claims, not loading, no error |
| AuthStores.AuthStore.SetState | src/app/store/auth/auth.store.ts:91-93 | the update merged into the state |
| AuthStores.AuthStore.Sync | src/app/store/auth/auth.store.ts:48-56 | the service's two signals copied in, loading and error kept |
| AuthStores.AuthStore.Login | src/app/store/auth/auth.store.ts:59-62 | loading with the error cleared |
| AuthStores.AuthStore.Logout | src/app/store/auth/auth.store.ts:64-68 | loading with the error cleared, the service signed out, one info notice |
| AuthStores.AuthStore.CheckAuth | src/app/store/auth/auth.store.ts:70-71 | loading with the error cleared |
| AuthStores.AuthStore.OnCheckAuthSuccess | src/app/store/auth/auth.store.ts:74-76 | only loading ends |
| AuthStores.AuthStore.OnCheckAuthError | src/app/store/auth/auth.store.ts:77-82 | loading ends, error 'Authentication check failed' |
| AuthStores.AuthStore.ClearError | src/app/store/auth/auth.store.ts:86-88 | only the error is reset |

## Left out

- Control values are text. `null` and `undefined` are read as ''. Numbers and other non-string values are not modelled. Text is a sequence of code points, not UTF-16 units.
- The pure `cardExpiration` reads the clock, and the legacy one reads the current year and month. Here the current local time is a parameter. Time zones and daylight-saving shifts are not modelled.
- The legacy `pattern` validator runs an arbitrary regular expression. It is not modelled. Every other regular expression is written out as a predicate.
- `capitalizeWords` (src/app/shared/forms/utils/ui-formatters.ts:77-80) is not modelled. Its `\b\w` replacement works on word boundaries.
- `sanitizeForDisplay` is modelled as written: one pass per pattern. The model does not prove the result free of the patterns, and a removal can leave a new match behind.
- GetCardDisplayName: inherited object keys such as "toString" are treated like any other unknown brand.
- Form errors are inputs. Angular's own evaluation of the validators attached by `createCreditCardForm` and the form configurations is not modelled. Disabled and pending controls are not modelled either.
- The form group's value is a record of strings and a flag. Properties beyond the modelled fields are not modelled.
- FormConfigs.GetCustomerFormConfig: takes a whole customer (or none) rather than a `Partial<Customer>`, so a customer that lacks only its identifier or user name, which the source turns into '', is not represented. `Partial<CreditCard>` is modelled for `createCreditCardForm` (CreditCardForm.InitialValue).
- Length validators take integer bounds. Fractional or `NaN` bounds are not modelled.
- Logging to the console is not modelled. Only the choice of level (`getLogLevel`) is kept. `createUserMessage` just returns the stored message.
- An `AppError`'s timestamp, original error and HTTP body are not part of the record.
- `isValidationError` reads properties of a thrown array's elements. A `null` element, which would throw, is not modelled. A `message` property that is not a string is not modelled either.
- The browser's `navigator.onLine` is a boolean input.
- Notification identifiers come from a counter instead of the clock and a random suffix. So the model's identifiers are unique, which the source only makes very likely.
- The auto-dismiss timer is not modelled. Only the duration it would use is stored.
- The OIDC client is outside the model: `authorize`, `logoff` and its observables. Its events and answers are inputs. `URLSearchParams` is reduced to two booleans.
- The logout redirect URL and `window.location` are not modelled.
- Browser storage holds one optional entry, modelled after JSON parsing. Unreadable text and a `null` record both count as unreadable. The stored timestamp is not kept.
- User claims beyond name, given and family name, e-mail, preferred user name and roles are not modelled.
- The customer service's HTTP calls are outside the model. Their answers are given to the success and failure handlers. The records sent to the service are not modelled.
- The store selectors `isAuthenticated` and `userData` of the customer store only forward the service's signals.
- UI components, routing, configuration, the HTTP interceptor's plumbing and the route guard are not modelled. Only the interceptor's and the global handler's rules for when to notify are kept.
