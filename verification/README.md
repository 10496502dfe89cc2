# push-lead-ane: the `/submit` lead-form handler

This project models the decision and formatting logic of the `POST /submit` handler of a small lead-capture relay. A visitor submits a lead form. The handler checks the two required fields and splits the full name into a first and a last name. It then posts a fixed-shape record to the CRM's lead-ingestion endpoint. After that it either redirects to the error page with a `code`, or schedules a chat notification and redirects to the success page.

The model is a set of pure functions over immutable datatypes:

- `Text`: Python's `str.split()`, `str.strip()` and `" ".join(...)` on `seq<char>`, using Python's whitespace set.
- `Names`: the first/last name split.
- `Hashtags`: the `PRODUCT_HASHTAGS` table and its lookup, which falls back to the value itself.
- `Crm`: the `sf_data` record, as a map from form key to optional value.
- `Notification`: the notification text. Its fixed-order field list, its filter of empty fields and the loop that builds the text are modelled.
- `Handler`: `submit_form` as a total function from configuration, form and CRM outcome to a `Response`. The CRM outcome is `ConnectionFailure` or `Completed(status)`. A `Response` holds the redirect (always HTTP 303), the CRM record posted (or `None` when the CRM is never called) and the list of scheduled notification texts.

The CRM call and the chat call are not performed. The CRM exchange is an input. Scheduling is modelled as putting the message in `scheduled`.

The record has twelve keys: `oid` from configuration plus eleven taken from the form (`Crm.CrmKeysCount`).

## Model

| member | source | states |
|---|---|---|
| Text.Split | main.py:97 | every token `split()` returns is non-empty and contains no whitespace |
| Text.SplitSeparated | main.py:97 | any non-empty run of whitespace, of any length and made of any whitespace characters, separates tokens: the tokens of `a + w + b` are those of `a` followed by those of `b` |
| Text.SplitSeparatedExample | main.py:97 | a tab, or two spaces, between "a" and "b" separates them into two tokens |
| Text.Join | main.py:99 | `" ".join`; specified by `Text.SplitJoin`, `Text.JoinNormalized`, `Text.JoinLast` and `Text.JoinEnds` |
| Text.SplitKeepsContent | main.py:97 | the tokens, concatenated, are the input with its whitespace deleted (no other character is lost or added) |
| Text.SplitEmptyIff | main.py:97-98 | `split()` returns no token exactly when the string is all whitespace (so `parts` is empty and `last_name` is `""`) |
| Text.SplitStrip | main.py:97 | `s.strip().split()` equals `s.split()`: the `strip()` has no effect |
| Text.SplitPrependSpace | main.py:97 | leading whitespace produces no token |
| Text.SplitAppendSpace | main.py:97 | trailing whitespace produces no token |
| Text.LeadingSpaces | main.py:97 | the count `lstrip` removes covers only whitespace and stops at the end or at a non-whitespace character |
| Text.TrailingSpaces | main.py:97 | the count `rstrip` removes covers only whitespace and stops at the start or at a non-whitespace character |
| Text.TrimStartSpec | main.py:97 | `lstrip` removes a whitespace-only prefix and leaves a suffix that is empty or starts with non-whitespace |
| Text.TrimEndSpec | main.py:97 | `rstrip` removes a whitespace-only suffix and leaves a prefix that is empty or ends with non-whitespace |
| Text.StripSpec | main.py:97 | `strip` leaves nothing exactly for an all-whitespace string; otherwise neither end of the result is whitespace |
| Text.TrimStart | main.py:97 | `lstrip`; specified by `Text.TrimStartSpec` and `Text.SplitTrimStart` |
| Text.TrimEnd | main.py:97 | `rstrip`; specified by `Text.TrimEndSpec` and `Text.SplitTrimEnd` |
| Text.Strip | main.py:97 | `strip`; specified by `Text.StripSpec` and `Text.SplitStrip` |
| Text.SplitTrimStart | main.py:97 | `s.lstrip().split()` equals `s.split()` |
| Text.SplitTrimEnd | main.py:97 | `s.rstrip().split()` equals `s.split()` |
| Text.SplitJoin | main.py:97-99 | round trip: splitting the `" ".join` of well-formed tokens gives the same tokens back |
| Text.JoinNormalized | main.py:99 | `" ".join` of tokens has no whitespace at the ends, and its only whitespace is single plain spaces |
| Text.JoinSplitNormalized | main.py:97-99 | a normalized string is the `" ".join` of its own tokens |
| Text.Normalize | main.py:97-99 | `" ".join(s.split())` is normalized and has the same tokens as `s` |
| Text.NormalizeFixpoint | main.py:97-99 | normalizing an already normalized string changes nothing |
| Text.JoinLast | main.py:98-99 | joining all tokens equals joining all but the last, then a space, then the last (pop, then join) |
| Text.JoinEnds | main.py:99 | a join of non-empty words is non-empty; it starts with the first word's first character and ends with the last word's last character |
| Names.SplitNameSpec | main.py:97-102 | the last name is empty exactly when the full name is all whitespace; otherwise the last name is one whitespace-free token, the tokens are the first name's tokens followed by the last name, the first name is normalized (its tokens joined by single spaces), and it is empty exactly when there is one token |
| Names.SplitName | main.py:97-99 | the name split; specified by `Names.SplitNameSpec` and `Names.NameRoundTrip` |
| Names.SplitNameSameTokens | main.py:97-99 | two full names with the same tokens split into the same first and last name |
| Names.PoppedName | main.py:98-99 | popping the last token and joining the rest leaves a normalized first name whose tokens are the remaining ones; it is empty exactly for a one-token list |
| Names.NameRoundTrip | main.py:97-99 | first name, one space and last name (or the last name alone when the first is empty) equals the whitespace-normalized full name |
| Names.SplitNameOfWords | main.py:97-99 | a full name written as `" ".join(ws)` splits into the join of all but the last word and the last word |
| Names.SplitNameThreeWords | main.py:97-99 | "Nguyễn Văn A" splits into first name "Nguyễn Văn" and last name "A" |
| Names.SplitNameOneWord | main.py:97-99 | "Linh", bare or padded with whitespace, splits into first name "" and last name "Linh" |
| Hashtags.ProductDisplay | main.py:139 | a known product shows the table's text, an unknown one shows verbatim, an absent one stays `None`; the result is non-empty exactly when the input is |
| Hashtags.TableEntriesNonEmpty | main.py:40-62 | no table key is empty and no table text is empty |
| Hashtags.ProductDisplayExamples | main.py:46 | "Pink Wave" shows as "Đèn trám quang trùng hợp #PinkWave"; "Unknown Product", "" and `None` pass through unchanged |
| Crm.BuildRecord | main.py:105-118 | the record's keys are exactly the twelve CRM keys |
| Crm.CrmKeysCount | main.py:105-118 | there are twelve distinct keys |
| Crm.RecordNameEntries | main.py:106-108 | `oid` is the configured organisation id; `first_name` and `last_name` are the two halves of the name split |
| Crm.RecordRoundTrip | main.py:105-118 | reading the record back gives the form with the rejoined name in place of the full name; every other field passes through unchanged |
| Crm.SubmittedRecordRoundTrip | main.py:97-118 | with the handler's name split, reading the record back gives the form with its full name whitespace-normalized |
| Notification.Fields | main.py:133-144 | ten fields whose labels are, in order, Họ tên, Điện thoại, Email, Công ty, Salesman, SP sẽ chào, Ghi chú, Facebook, Trang web, Nguồn Lead |
| Notification.FieldsStart | main.py:134-139 | the first two fields carry the full name and the mobile; the sixth carries the hashtag-translated product interest |
| Notification.FieldValues | main.py:133-144 | each of the ten labels carries its own form field: Họ tên the full name, Điện thoại the mobile, Email the email, Công ty the company, Salesman the salesman, SP sẽ chào the hashtag-translated product interest, Ghi chú the description, Facebook the Facebook link, Trang web the URL, Nguồn Lead the lead source |
| Notification.Present | main.py:146-147 | every field kept by the filter has a non-empty value, and at most all fields are kept |
| Notification.PresentMembers | main.py:146-147 | a field is kept exactly when it is in the list and has a non-empty value |
| Notification.PresentAppend | main.py:146-148 | the filter works piece by piece, so kept fields keep their relative order |
| Notification.RenderAppend | main.py:146-148 | rendering a concatenation of field lists is the concatenation of their renderings |
| Notification.Line | main.py:147-148 | one field's `<b>{label}:</b> {value}` line and a line break; its text is written out in `Notification.MessageRequiredOnlyText` |
| Notification.Render | main.py:146-148 | the lines of the kept fields in order; specified by `Notification.RenderAppend` and `Notification.BuildMessage` |
| Notification.Message | main.py:130 | every notification starts with the header "<b>Thông tin Lead mới #PUSHLEAD:</b>" and a blank line |
| Notification.BuildMessage | main.py:130-148 | the source's loop produces the header followed by one line per non-empty field, in order |
| Notification.LabelsDistinct | main.py:133-144 | the ten labels are pairwise different |
| Notification.LabelShownIff | main.py:146-148 | the line for a label appears exactly when that label's field has a non-empty value |
| Notification.ProductLineIff | main.py:139-148 | the "SP sẽ chào" line appears exactly when a non-empty product interest was submitted, and then shows the looked-up text |
| Notification.PresentShownCons | main.py:146-148 | a non-empty field at the front is kept and rendered first |
| Notification.RenderTwoShown | main.py:146-148 | two non-empty fields at the front become the first two lines |
| Notification.NoneShown | main.py:146-147 | a list with no non-empty value renders no line |
| Notification.AllShownPresent | main.py:146-147 | a list whose values are all non-empty is kept whole |
| Notification.MessageStartsWithRequiredLines | main.py:130-148 | with both required fields non-empty, the message begins with the header, the Họ tên line and the Điện thoại line |
| Notification.MessageRequiredOnly | main.py:130-148 | when every optional field is empty or absent, the message is exactly the header plus the Họ tên and Điện thoại lines |
| Notification.MessageRequiredOnlyText | main.py:130-148 | with only the required fields filled in, the message is literally `<b>Thông tin Lead mới #PUSHLEAD:</b>`, a blank line, `<b>Họ tên:</b> ` and the full name, a line break, `<b>Điện thoại:</b> ` and the mobile, and a final line break |
| Notification.MessageAllFields | main.py:130-148 | when every field is non-empty, all ten fields are shown, in order |
| Handler.Submit | main.py:93-152 | every response is an HTTP 303 redirect |
| Handler.Valid | main.py:93-102 | the submission passes both checks; specified by `Handler.MissingFieldsFirst`, `Handler.InvalidNameIff` and `Handler.CrmCalledIff` |
| Handler.CodeText | main.py:93-127 | the `code` parameter of an error redirect; its three texts are written out in `Handler.ErrorTargets` |
| Handler.Location | main.py:93-152 | the redirect target; specified by `Handler.RedirectTargets`, `Handler.ErrorTargets` and `Handler.ErrorLocationsDistinct` |
| Handler.MissingFieldsFirst | main.py:93-94 | the redirect is `missing_fields` exactly when the full name or the mobile is empty; then no CRM record is sent and no notification is scheduled |
| Handler.InvalidNameIff | main.py:97-102 | the redirect is `invalid_name` exactly when both required fields are non-empty and the full name is all whitespace; then no CRM record is sent and no notification is scheduled |
| Handler.CrmCalledIff | main.py:93-122 | the CRM is called exactly for valid submissions, with the record built from the config's org id, the name split and the form |
| Handler.ConnectionFailureNoNotification | main.py:121-127 | for a valid submission, a CRM connection failure gives the `sf_error` redirect and schedules nothing |
| Handler.NotificationIff | main.py:121-152 | a notification is scheduled exactly when the submission is valid and the CRM exchange completed, with any status; it is then the single message for the form, and the redirect goes to the success page exactly in that case |
| Handler.StatusIrrelevant | main.py:122-124 | two completed CRM exchanges with different status codes give the same response |
| Handler.SuccessNotificationHasRequiredLines | main.py:130-152 | on the success path exactly one notification is scheduled, and it begins with the header, the Họ tên line and the Điện thoại line |
| Handler.SuccessRecordName | main.py:97-118 | on a valid submission the posted record has exactly the twelve keys and the configured `oid`; its last name is one whitespace-free token; first and last name rejoin to the normalized full name |
| Handler.ErrorLocationsDistinct | main.py:93-127 | different error codes give different error redirect targets |
| Handler.ErrorTargets | main.py:93-127 | the error page with `?code=missing_fields`, `?code=invalid_name` and `?code=sf_error` for the three error codes |
| Handler.RedirectTargets | main.py:93-152 | an empty required field goes to the error page with `?code=missing_fields`, a whitespace-only name with `?code=invalid_name`, a failed CRM post with `?code=sf_error`, and a completed one to the success page |

## Left out

- FastAPI routing, form parsing and field aliases, static file mounting and the `GET /` redirect (main.py:14, 64, 78-91, 154-156): web framework plumbing. The form arrives already parsed as a `LeadForm`. A missing required field, which FastAPI rejects before the handler runs, is not modelled.
- Loading configuration from the environment (main.py:12-23): the values are a `Config` parameter. The redirect URLs are plain strings, so an unset variable, which Python would format as "None", is not modelled. Starlette's percent-quoting of the redirect URL is not modelled either.
- The HTTP posts to the CRM and to the chat service, the chat post's 10-second timeout and the printed logs (main.py:66-76, 122-126): network I/O and logging. The CRM result is the `CrmOutcome` input. How `requests` form-encodes the record, including dropping `None` values, is library behaviour and not modelled.
- The CRM post has no timeout (main.py:122), so the handler can wait for ever. The model takes the outcome as given, so `Handler.Submit`'s "every response is a 303" holds only for exchanges that end. `ConnectionFailure` stands for any exception raised inside the `try` block (main.py:122-124): a network error, an unset or malformed `SF_SALESFORCE_URL`, or a failing `print`. An exception raised by the `print` in the `except` branch (main.py:126) would escape the handler as a server error; that is not modelled.
- Running the background task (main.py:150): only the fact that a message is scheduled is modelled. When and whether it is delivered is not.
- `FIELD_DISPLAY_NAMES` (main.py:26-38): it is declared but never read by the handler.
- HTML escaping: the source does none, so values go into the notification verbatim, as modelled.
- Text.IsSpace: uses the fixed set of characters that Python 3's `str.isspace` accepts (U+0009-U+000D, U+001C-U+0020, U+0085, U+00A0, U+1680, U+2000-U+200A, U+2028, U+2029, U+202F, U+205F, U+3000). A future change to Python's Unicode database is not followed.
