# Money Manager Ex for Android: amount keypad and sync gating

This project is a Dafny model of two pieces of logic from the Money Manager Ex Android app.

**The amount-entry keypad (`AmountInputActivity`).** The user builds an arithmetic expression with number, operator, clear and delete keys. Every key press updates three things:
- the text buffer;
- the "started typing" flag, which decides whether a number key replaces the text or appends to it;
- the expression's evaluation, which sets the last valid amount and the warning colour of the top box:
  - an empty expression gives zero;
  - a value is truncated toward zero at a precision chosen from the rounding flag and the currency;
  - an argument error keeps the old amount and shows the warning colour;
  - any other error keeps the old amount and shows the default colour.

The model is a class, `AmountInput.AmountInputActivity`, whose invariant is that the amount and the colour always match the current text. Around it are pure functions for:
- the precision policy;
- `getAmount`'s rounding policy;
- the formatter choices of the top box and the entry field;
- `deleteLastCharacterFrom`.

Amounts (`Amounts.Money`) are an integer mantissa with a number of fractional digits. Truncation is modelled exactly, and its properties are proved: it moves toward zero by less than one unit, it never takes the opposite sign, and truncating twice equals truncating once to the coarser precision.

**Sync gating (`SyncManager`).** This part covers:
- whether sync is active (online, and a remote file is set);
- whether it is allowed (also on WiFi, when the preferences ask for WiFi only);
- the order of the guards before the sync service is started, and the request that gets queued;
- the lazy loading of the preferences;
- the comparison of local and remote file names (the last path component, ignoring case);
- setting the "local file changed" flag, which saves only when the flag changes.

The network state, the stored preferences, the database path and the recent-databases list are inputs. Shown toasts and queued service requests are kept as sequences.

## Model

| member | source | states |
|---|---|---|
| `Nullable.IsEmpty` | app/src/main/java/com/money/manager/ex/common/AmountInputActivity.java:208 | `TextUtils.isEmpty` holds for a null text and for the empty text, and not for any other |
| `Amounts.DivTowardZero` | app/src/main/java/com/money/manager/ex/common/AmountInputActivity.java:270-271 | the quotient is rounded toward zero: magnitude(q)·d ≤ magnitude(n) < (magnitude(q)+1)·d, and q never has the opposite sign of n |
| `Amounts.Truncate` | app/src/main/java/com/money/manager/ex/common/AmountInputActivity.java:270-271 | `truncate(precision)` keeps exactly `precision` fractional digits when the amount has more, and leaves the digit count alone otherwise |
| `Amounts.TruncateTowardZero` | app/src/main/java/com/money/manager/ex/common/AmountInputActivity.java:270-271 | the truncated amount is not larger in magnitude, is less than one unit of the kept precision away, and never has the opposite sign |
| `Amounts.TruncateKeepsShortAmounts` | app/src/main/java/com/money/manager/ex/common/AmountInputActivity.java:270-271 | an amount that is already within the precision is unchanged |
| `Amounts.TruncateTwice` | app/src/main/java/com/money/manager/ex/common/AmountInputActivity.java:270-271 | truncating to a finer precision and then to a coarser one is the same as truncating to the coarser one |
| `Amounts.TruncateExample` | app/src/main/java/com/money/manager/ex/common/AmountInputActivity.java:270-271 | 12.345 at two digits is 12.34, and -12.345 is -12.34 (toward zero, not rounded) |
| `AmountInput.GetCurrency` | app/src/main/java/com/money/manager/ex/common/AmountInputActivity.java:326-327 | the currency is found exactly when the id is non-null and known, and then it is that id's currency |
| `AmountInput.GetPrecision` | app/src/main/java/com/money/manager/ex/common/AmountInputActivity.java:322-332 | DEFAULT_PRECISION when rounding is off, the id is null or the currency is unknown; otherwise the currency's number of decimals |
| `AmountInput.IsCurrencySet` | app/src/main/java/com/money/manager/ex/common/AmountInputActivity.java:401-403 | false for a null id and for NOT_SET, true for every other id |
| `AmountInput.GetAmount` | app/src/main/java/com/money/manager/ex/common/AmountInputActivity.java:405-417 | truncates to the currency only when rounding is on and the id is neither null nor NOT_SET; otherwise returns the amount unchanged |
| `AmountInput.GetAmountKeepsEvaluatedAmount` | app/src/main/java/com/money/manager/ex/common/AmountInputActivity.java:405-417 | when truncateToCurrency truncates to the currency's number of decimals, getAmount returns an amount evaluated at getPrecision unchanged (the currency is known whenever getAmount rounds) |
| `AmountInput.FormatBranchOf` | app/src/main/java/com/money/manager/ex/common/AmountInputActivity.java:295-316 | the decimal-ignoring formatter exactly when rounding is off (even with a null id, overriding the locale one); the locale formatter exactly when rounding with a null id; the currency formatter exactly when rounding with a non-null id, and then with that id |
| `AmountInput.EditingFormatOf` | app/src/main/java/com/money/manager/ex/common/AmountInputActivity.java:419-444 | "0" exactly when there is no amount; the locale format when the currency is unknown; the currency's scale when rounding, the default precision otherwise |
| `AmountInput.PoliciesAgree` | app/src/main/java/com/money/manager/ex/common/AmountInputActivity.java:295-332 | when rounding to a known currency that is set, precision, getAmount and the formatter all follow the currency; when rounding is off, all three ignore its decimals |
| `AmountInput.DeleteLastCharacterFrom` | app/src/main/java/com/money/manager/ex/common/AmountInputActivity.java:334-349 | an empty text is returned as it is; otherwise exactly the last character is dropped, and "0" replaces a text that would become empty, so a non-empty text never becomes empty |
| `AmountInput.DeletingRepeatedly` | app/src/main/java/com/money/manager/ex/common/AmountInputActivity.java:187-200 | k presses of delete on a non-empty text leave all but its last k characters, then "0" from there on; the text is never empty |
| `AmountInput.Evaluate` | app/src/main/java/com/money/manager/ex/common/AmountInputActivity.java:259-289 | the result is consistent with the text (empty gives zero, a value gives it truncated at the precision, warning exactly on an argument error); success exactly when there is no warning; both errors keep the previous amount |
| `AmountInput.EvaluateIdempotent` | app/src/main/java/com/money/manager/ex/common/AmountInputActivity.java:259-289 | evaluating the same text a second time changes nothing |
| `AmountInput.EvaluatedAmountWithinPrecision` | app/src/main/java/com/money/manager/ex/common/AmountInputActivity.java:265-284 | after an empty text or a value, an amount is held and it has no more fractional digits than the precision |
| `AmountInput.AmountInputActivity.constructor` | app/src/main/java/com/money/manager/ex/common/AmountInputActivity.java:203-215 | the text is the saved expression if there is one, else the amount formatted for editing ("0" without an amount); typing has not started; the first evaluation makes the state consistent |
| `AmountInput.AmountInputActivity.DisplayFormattedAmount` | app/src/main/java/com/money/manager/ex/common/AmountInputActivity.java:249-253 | the top box shows the current amount through the formatter `getFormattedAmount` picks |
| `AmountInput.AmountInputActivity.ShowAmountInEntryField` | app/src/main/java/com/money/manager/ex/common/AmountInputActivity.java:474-478 | the entry field shows "0" without an amount, otherwise the amount formatted for editing |
| `AmountInput.AmountInputActivity.EvalExpression` | app/src/main/java/com/money/manager/ex/common/AmountInputActivity.java:259-289 | empty cleaned text: amount 0, default colour, true. Value: truncated at the precision, default colour, true. Argument error: amount unchanged, warning colour, false. Other error: amount unchanged, default colour, true. Amount, colour and result are exactly what `Evaluate` gives for the current text, so its lemmas hold for the class |
| `AmountInput.AmountInputActivity.PressNumber` | app/src/main/java/com/money/manager/ex/common/AmountInputActivity.java:124-136 | the text is replaced by the key before typing has started and extended by it afterwards; typing has started; the amount is recomputed from the new text |
| `AmountInput.AmountInputActivity.PressOperator` | app/src/main/java/com/money/manager/ex/common/AmountInputActivity.java:143-151 | the key is appended; typing has started; the amount is recomputed |
| `AmountInput.AmountInputActivity.PressClear` | app/src/main/java/com/money/manager/ex/common/AmountInputActivity.java:159-167 | the text becomes empty; typing has started; the amount is recomputed (zero, default colour, for an empty cleaned text) |
| `AmountInput.AmountInputActivity.PressDelete` | app/src/main/java/com/money/manager/ex/common/AmountInputActivity.java:187-200 | the text loses its last character as `deleteLastCharacterFrom` says, and a non-empty one stays non-empty; typing has started; the amount is recomputed |
| `Sync.StripTrailingSlashes` | app/src/main/java/com/money/manager/ex/sync/SyncManager.java:351 | the result is a prefix of the path that does not end in '/', and every character removed is a '/', so exactly the trailing separators are dropped |
| `Sync.AfterLastSlash` | app/src/main/java/com/money/manager/ex/sync/SyncManager.java:352 | the result is a suffix of the path without '/', preceded by '/' unless it is the whole path |
| `Sync.FileName` | app/src/main/java/com/money/manager/ex/sync/SyncManager.java:351-355 | `File.getName` contains no '/' |
| `Sync.AfterLastSlashOfJoined` | app/src/main/java/com/money/manager/ex/sync/SyncManager.java:351-355 | the part after the last '/' of dir + "/" + name is the name |
| `Sync.FileNameOfJoined` | app/src/main/java/com/money/manager/ex/sync/SyncManager.java:351-355 | the file name of dir + "/" + name is the name, whatever the directory |
| `Sync.EqualsIgnoreCase` | app/src/main/java/com/money/manager/ex/sync/SyncManager.java:357 | equal texts are equal ignoring case; two texts are equal ignoring case exactly when they have the same length and agree character by character after case folding |
| `Sync.AreFileNamesSame` | app/src/main/java/com/money/manager/ex/sync/SyncManager.java:347-358 | false whenever the local or the remote path is null or empty |
| `Sync.FileNamesSameSymmetric` | app/src/main/java/com/money/manager/ex/sync/SyncManager.java:347-358 | swapping the two paths does not change the answer |
| `Sync.FileNamesSameIgnoresDirectories` | app/src/main/java/com/money/manager/ex/sync/SyncManager.java:351-357 | for paths dir + "/" + name, the answer is exactly whether the names are equal ignoring case; the directories do not matter |
| `Sync.FileNamesSameExample` | app/src/main/java/com/money/manager/ex/sync/SyncManager.java:347-358 | /sdcard/data.mmb matches /Dropbox/Data.MMB |
| `Sync.GetRemotePath` | app/src/main/java/com/money/manager/ex/sync/SyncManager.java:138-144 | null without a current database, otherwise that database's remote path |
| `Sync.IsActive` | app/src/main/java/com/money/manager/ex/sync/SyncManager.java:193-203 | true exactly when online and the current database's remote path is non-empty |
| `Sync.CanSync` | app/src/main/java/com/money/manager/ex/sync/SyncManager.java:101-118 | implies isActive; with WiFi-only set it is isActive and on WiFi; with WiFi-only cleared it equals isActive |
| `Sync.RequestFor` | app/src/main/java/com/money/manager/ex/sync/SyncManager.java:146-180 | nothing is queued exactly when the remote path is empty; otherwise one request carrying the action and the current database's local and remote paths |
| `Sync.ToastFor` | app/src/main/java/com/money/manager/ex/sync/SyncManager.java:283-294 | `filenames_differ` exactly when the local path is missing, `select_remote_file` exactly when the remote path is missing, no toast otherwise |
| `Sync.TriggerDecision` | app/src/main/java/com/money/manager/ex/sync/SyncManager.java:280-296 | sync is invoked exactly when canSync holds, the local path is non-empty and the remote path is non-empty; it stops at the first failing guard, in that order |
| `Sync.RemotePathGuardUnreachable` | app/src/main/java/com/money/manager/ex/sync/SyncManager.java:290-294 | the remote-path guard never stops a sync, because canSync already requires a remote path; an invoked sync always queues exactly one request |
| `Sync.WithLocalFileChanged` | app/src/main/java/com/money/manager/ex/sync/SyncManager.java:395-397 | only the entry of the given path changes, and only its flag, which becomes the given value |
| `Sync.LocalFileChangedIdempotent` | app/src/main/java/com/money/manager/ex/sync/SyncManager.java:391-399 | setting the flag to the value it has changes nothing; setting it twice equals setting it once |
| `Sync.RecentDatabases.Current` | app/src/main/java/com/money/manager/ex/sync/SyncManager.java:139 | there is a current entry exactly when a current path is set and listed, and it is that path's entry |
| `Sync.RecentDatabases.Save` | app/src/main/java/com/money/manager/ex/sync/SyncManager.java:398 | the entries are persisted and the save count goes up by one |
| `Sync.SyncManager.GetPreferences` | app/src/main/java/com/money/manager/ex/sync/SyncManager.java:384-389 | preferences are loaded on first use and the same ones are returned afterwards |
| `Sync.SyncManager.CheckCanSync` | app/src/main/java/com/money/manager/ex/sync/SyncManager.java:101-118 | returns canSync over the effective preferences; the preferences are loaded only when sync is active |
| `Sync.SyncManager.InvokeSyncService` | app/src/main/java/com/money/manager/ex/sync/SyncManager.java:146-186 | queues nothing when the remote path is empty, otherwise exactly the request for the current database |
| `Sync.SyncManager.TriggerSynchronization` | app/src/main/java/com/money/manager/ex/sync/SyncManager.java:280-302 | the result follows the guard chain; the toast of the failing guard is shown; the sync request is queued only when all guards pass |
| `Sync.SyncManager.TriggerDownload` | app/src/main/java/com/money/manager/ex/sync/SyncManager.java:304-306 | queues the download request, under the same remote-path check |
| `Sync.SyncManager.TriggerUpload` | app/src/main/java/com/money/manager/ex/sync/SyncManager.java:308-310 | queues the upload request, under the same remote-path check |
| `Sync.SyncManager.MarkLocalFileChanged` | app/src/main/java/com/money/manager/ex/sync/SyncManager.java:391-399 | afterwards the entry's flag is the given value; it saves exactly when the flag changed, so a repeated call writes nothing |

## Left out

- Expression parsing and evaluation (exp4j) and the `Double` to `Money` conversion are one abstract function, `Services.evaluate`, with three outcomes. A `NumberFormatException` from parsing a non-finite `Double` is an `IllegalArgumentException`, so it is the `ArgumentError` outcome.
- `NumericHelper.cleanUpNumberString`, `getNumberOfDecimals` and `truncateToCurrency`, the `CurrencyService` lookup and every `FormatUtilities` formatter are parameters. The model captures which formatter is chosen, not the strings they produce.
- `Constants.DEFAULT_PRECISION` and `Constants.NOT_SET`: Constants.java is not part of this model. They are declared without a value, so every proof holds whatever they are.
- Money amounts: `Money.truncate` is modelled as exact decimal truncation toward zero. The library's internal representation (a long-based or BigDecimal value) is not modelled.
- `AmountInput.GetAmountKeepsEvaluatedAmount`: it assumes that `truncateToCurrency` of a known currency truncates to `getNumberOfDecimals` of its scale, because NumericHelper.java is not part of this model. It also excludes rounding to a set but unknown currency id, where the source passes a null currency on to `truncateToCurrency`.
- `AmountInput.AmountInputActivity.PressClear`: it promises zero only when the cleaned empty text is empty. `cleanUpNumberString("")` is not part of this model.
- Android plumbing is not modelled. This covers view lookup, text colour values, the decimal-separator button label, Intent extras (`extractArguments`), the equals button's result and `finish`, state saving, and the commented-out dialog code.
- `AmountInput.GetCurrency`: it returns no currency for a null id. At AmountInputActivity.java:423 the source passes the id to `CurrencyService.getCurrency` without a null check, and CurrencyService.java is not part of this model; the model assumes the service answers null there.
- `AmountInput.FormatBranchOf`: it assumes `formatWithLocale` and `formatNumberIgnoreDecimalCount` never return null. If either did, the source would fall through at AmountInputActivity.java:310-311 to `getCurrencyFormatted`.
- `Sync.AreFileNamesSame`: case folding covers the ASCII letters only, where Java's `equalsIgnoreCase` also folds other Unicode letters. In the source, `areFileNamesSame` is called only from commented-out code.
- `Sync.FileName`: the model drops trailing separators and takes the text after the last '/'. It does not model Windows separators or the rest of `java.io.File`'s normalisation, which does not change the last component.
- `Sync.SyncManager.TriggerSynchronization`: the source's remote-path guard shows the `select_remote_file` toast. `Sync.RemotePathGuardUnreachable` proves that branch is dead, so the model asserts it cannot be reached. The proof assumes that the current database does not change between canSync's read of the remote path (SyncManager.java:202) and the second read at :290, and it treats `DatabaseManager.getDatabasePath` (:284) as a pure input. The Amplitude tracking after the sync is left out.
- Network state is one snapshot per call, where the source queries `NetworkUtils` twice (online, then WiFi). Concurrent changes between the two queries are not modelled.
- `Sync.SyncManager.MarkLocalFileChanged` requires the entry for the path to exist. The source dereferences it unchecked and would throw otherwise.
- `RecentDatabasesProvider` is a map from local path to metadata plus a current path. Its persistence format is not modelled.
- OS services and I/O are not modelled. This covers AlarmManager and PendingIntent (`scheduleDelayedUpload`, `abortScheduledUpload`), broadcasts (`startSyncServiceHeartbeat`, `stopSyncServiceAlarm`), the progress dialog and Messenger, `SyncService` itself, `getExternalStorageDirectoryForSync`, `useDownloadedDatabase`, `resetPreferences`, `setSyncInterval`, the deprecated date preference and the commented-out `triggerSyncJob`.
- BehaviourSettingsFragment.java is preference-screen and permission wiring with no logic of its own to model.
