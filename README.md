# Medical flashcards: a verified model of the core

This project is a Dafny model of the core of a flashcard application for medical students. It has six parts.

- **Catalog service** (`catalog.dfy`, from `src/Admin/app.py`). This is the admin backend that keeps subjects and their questions. The document store is a map from subject id to subject. Each HTTP handler is one method of `Catalog.SubjectStore`. A handler returns its JSON reply and status code: 200 with a message, or 400/404 with an error text. The store invariant is that question ids are distinct within each subject, and every handler keeps it.
- **Review queue** (`review_queue.dfy`, from `src/Flashcard/Flashcard.jsx`). This is the spaced-repetition queue. An answered card is queued with a countdown taken from a fixed table. Every answer advances all countdowns. The first card whose countdown has run out comes back before the next session card.
- **Study session** (`study_session.dfy`, from `src/Flashcard/Flashcard.jsx`). This covers the score, the streak and the history kept as answers are marked, the Fisher–Yates shuffle, and the choice of a session's cards for each mode (free trial, challenge, one subject, mixed).
- **Route guard** (`access.dfy`, from `src/components/ProtectedRoute.jsx`). `checkAuth` checks, in order: the session, email confirmation, the profile (a student profile is created if it is missing), profile completion, and the required role. The chain ends in a redirect to `/login`, `/complete-profile` or `/dashboard`, or in showing the protected page. It also covers the auth-state listener. The answers of the authentication service and the profile table are inputs.
- **Entry forms** (`otp.dfy` and `password.dfy`, from `src/Entry/Otp-verify.jsx` and `src/Entry/UpdatePassword.jsx`). These are the six-digit one-time-code field and the new-password checks.
- **Subject styling** (`subject_style.dfy`, from `src/utils/subjectConstants.jsx`). This is the choice of an icon and a cover image from a subject's name. The name is lower-cased, and the first keyword found decides.

`wrappers.dfy` holds the `Option` type.

Conventions:
- JavaScript's "falsy" string (absent, `null` or `''`) is the empty string.
- An absent JSON key is `None`.
- `Math.random` in the shuffle is an arbitrary index in the allowed range, so the shuffle's contract holds for every random outcome.
- `Date.now()` is a parameter.

## Model

| member | source | states |
|---|---|---|
| Catalog.MaxId | src/Admin/app.py:64 | the maximum of a non-empty id list bounds every id and is one of them |
| Catalog.NextId | src/Admin/app.py:62-64 | the new id is 1 for an empty subject, one more than an existing id otherwise, and greater than every id in the subject |
| Catalog.AcceptableQuestion | src/Admin/app.py:47 | a payload is accepted exactly when its question text is present and non-empty and its options, when present, are a list |
| Catalog.NewQuestion | src/Admin/app.py:67-74 | the built question carries the given id and text, and each absent field takes its default: options `[]`, correct `0`, difficulty `"easy"`, explanation `""` |
| Catalog.FirstMatch | src/Admin/app.py:102-109 | the loop's first match: the returned position holds the id, no earlier one does, and there is none exactly when no question has the id |
| Catalog.Merge | src/Admin/app.py:104-108 | the id is kept, and each of the five fields takes the payload's value when the payload supplies it and keeps the stored value otherwise |
| Catalog.Without | src/Admin/app.py:128-131 | the survivors are exactly the questions whose id differs; the length stays the same exactly when no question has the id |
| Catalog.NextIdKeepsDistinct | src/Admin/app.py:62-80 | appending a question with the next id keeps a subject's ids pairwise distinct |
| Catalog.MergeKeepsId | src/Admin/app.py:103-108 | an edit never changes the question's id |
| Catalog.MergeNothing | src/Admin/app.py:104-108 | an edit whose payload supplies no field leaves the question as it was |
| Catalog.MergeTwice | src/Admin/app.py:104-108 | two edits in a row equal one edit whose payload takes the later value of each field |
| Catalog.EditKeepsDistinct | src/Admin/app.py:102-109 | replacing a question by its edit keeps the ids distinct |
| Catalog.WithoutConcat | src/Admin/app.py:128 | the delete filter distributes over concatenation, so the remaining questions keep their order |
| Catalog.WithoutKeepsDistinct | src/Admin/app.py:128 | deleting keeps the remaining ids distinct |
| Catalog.WithoutRemovesOne | src/Admin/app.py:128-131 | with distinct ids, deleting an existing id removes exactly one question |
| Catalog.StoredOrPlaceholder | src/Admin/app.py:50-59 | a stored subject is used as stored; an absent one is replaced by a subject named "Subject " + id with no questions |
| Catalog.SubjectStore.GetSubjects | src/Admin/app.py:20-23 | lists every stored subject exactly once, with its name and questions |
| Catalog.SubjectStore.AddSubject | src/Admin/app.py:25-38 | 400 "id and name required" or 400 "Subject already exists" leave the store unchanged; otherwise exactly one subject with no questions is added and the rest are untouched; the invariant is kept |
| Catalog.SubjectStore.AddQuestion | src/Admin/app.py:42-82 | 400 "Invalid question data" for a missing or empty question or non-list options, with the store unchanged; otherwise an absent subject is first created as "Subject " + id, the new question is appended with the next id and defaults, and nothing else changes; the invariant is kept |
| Catalog.SubjectStore.GetQuestions | src/Admin/app.py:85-90 | 404 "Subject not found" for an absent subject, otherwise that subject's question list exactly as stored |
| Catalog.SubjectStore.EditQuestion | src/Admin/app.py:93-119 | 404 for an absent subject or question id, with the store unchanged; otherwise only the first question with that id is replaced by its field-by-field merge, and the list length and order stay; the invariant is kept |
| Catalog.SubjectStore.DeleteQuestion | src/Admin/app.py:122-138 | 404 for an absent subject or question id, with the store unchanged; otherwise the subject keeps exactly the questions with another id, in order; the invariant is kept |
| ReviewQueue.Interval | src/Flashcard/Flashcard.jsx:24-38 | the review interval is 30 to 40 answers after a correct answer and 8 to 12 after a wrong one |
| ReviewQueue.IntervalOrdering | src/Flashcard/Flashcard.jsx:24-38 | a harder card comes back sooner after a correct answer and later after a wrong one, and every wrong answer comes back before every correct one |
| ReviewQueue.Enqueue | src/Flashcard/Flashcard.jsx:103-118 | appends exactly one entry, with count 0 and the table's interval for the card's difficulty and correctness, and leaves the earlier entries as they were |
| ReviewQueue.Tick | src/Flashcard/Flashcard.jsx:143-150 | every entry's count grows by one, and the length, the order and every other field stay the same |
| ReviewQueue.TicksAt | src/Flashcard/Flashcard.jsx:143-150 | after n answers each entry's count has grown by exactly n and nothing else has changed |
| ReviewQueue.DueAfterInterval | src/Flashcard/Flashcard.jsx:103-150 | a newly queued card is due exactly when its interval's number of answers has gone by |
| ReviewQueue.FirstReady | src/Flashcard/Flashcard.jsx:122-128 | the position of the first due entry in queue order, or none when no entry is due |
| ReviewQueue.NextQuestion | src/Flashcard/Flashcard.jsx:120-141 | if an entry is due, the first due entry's card is returned and that entry is removed; otherwise the queue is untouched and the result is the next session card, or none after the last one |
| ReviewQueue.NextQuestionRemovesOne | src/Flashcard/Flashcard.jsx:129-131 | taking a due card removes that one entry and keeps every other entry |
| StudySession.RunWithinScore | src/Flashcard/Flashcard.jsx:171-204 | the streak never exceeds the score, and the score never exceeds the number of answers |
| StudySession.CorrectLastMeansRun | src/Flashcard/Flashcard.jsx:171-187 | a history ending in a correct answer has a score and a streak of at least one |
| StudySession.Session.MarkCorrect | src/Flashcard/Flashcard.jsx:171-187 | score and streak grow by one, one history record is appended, the card is queued as answered correctly, and score and streak keep counting the history |
| StudySession.Session.MarkIncorrect | src/Flashcard/Flashcard.jsx:189-204 | the score stays, the streak drops to 0, one history record is appended, the card is queued as answered wrongly, and score and streak keep counting the history |
| StudySession.Swap | src/Flashcard/Flashcard.jsx:98 | exchanges the two cells and leaves the rest of the array as it was, so the multiset of cards is unchanged |
| StudySession.Shuffle | src/Flashcard/Flashcard.jsx:94-101 | whatever the random choices, the result is a permutation of the input: same length and same multiset |
| StudySession.AllCards | src/Flashcard/Flashcard.jsx:45 | a card is among the collected cards exactly when it belongs to some subject |
| StudySession.AllCardsConcat | src/Flashcard/Flashcard.jsx:45 | the collected cards of a list of subjects are each subject's cards one after the other, in order |
| StudySession.WithDifficulty | src/Flashcard/Flashcard.jsx:49 | every copy of a card at the level is kept and no card at another level is kept (multiset counts) |
| StudySession.WithDifficultyMembers | src/Flashcard/Flashcard.jsx:49 | a card survives the filter exactly when it is in the input and at the level, and the filter adds no copies |
| StudySession.WithDifficultyConcat | src/Flashcard/Flashcard.jsx:49 | the filter distributes over concatenation, so kept cards stay in their order |
| StudySession.FindSubject | src/Flashcard/Flashcard.jsx:59 | the result is the first subject with the id; there is none exactly when no subject has the id |
| StudySession.Take | src/Flashcard/Flashcard.jsx:52 | the slice is the prefix of the input of length min(n, number of cards) |
| StudySession.AllAtSubset | src/Flashcard/Flashcard.jsx:48-73 | any selection of cards filtered to one level keeps that level |
| StudySession.Pool | src/Flashcard/Flashcard.jsx:46-50 | without a filter the pool is every card; with the filter it keeps every copy of each card at the difficulty and no other card |
| StudySession.FreeTrialCards | src/Flashcard/Flashcard.jsx:43-52 | exactly min(limit, pool size) cards (limit 5 when unset), taken from the pool of all cards filtered unless the difficulty is "mixed" or unset, all at the difficulty when the filter applies |
| StudySession.ChallengeCards | src/Flashcard/Flashcard.jsx:53-56 | exactly min(15, number of cards) cards, taken from all the bundled cards |
| StudySession.SubjectCards | src/Flashcard/Flashcard.jsx:57-66 | no cards for an unknown subject; otherwise a reordering of exactly the first matching subject's cards, filtered to the difficulty unless it is "all" or unset |
| StudySession.MixedCards | src/Flashcard/Flashcard.jsx:67-74 | a reordering of exactly the first 10 cards of the filtered list of all cards (filtered unless the difficulty is "all" or unset), so min(10, pool size) cards, all at the difficulty when the filter applies |
| StudySession.SelectSession | src/Flashcard/Flashcard.jsx:40-79 | picks the branch in the order free trial, challenge, one subject, mixed, and keeps that branch's exact size or exact contents (up to order) and its difficulty guarantee |
| Access.Destination | src/components/ProtectedRoute.jsx:11-88 | no session or a thrown error leads to `/login`, as do an unconfirmed email and a failed profile insert; a confirmed user whose profile (fetched or newly created) is not completed goes to `/complete-profile`; `/dashboard` exactly when a confirmed user's completed profile has a role other than a required (non-empty) one; the protected page exactly when there is a session, the email is confirmed, the profile exists and is completed, and the role matches when one is required |
| Access.NewRow | src/components/ProtectedRoute.jsx:51-56 | the inserted row carries the user's id and name, role "student" and `profile_completed` false |
| Access.IncompleteBeforeRole | src/components/ProtectedRoute.jsx:70-81 | an incomplete profile goes to `/complete-profile` whatever role is required |
| Access.OnAuthStateChange | src/components/ProtectedRoute.jsx:93-98 | a sign-out event or a lost session leads to `/login`, and nothing else does |
| Access.RouteGuard.CheckAuth | src/components/ProtectedRoute.jsx:11-88 | the chain's outcome is `Destination`; loading clears exactly when the page is shown; the outside calls are exactly none without a session, sign-out then the verify-email alert for an unconfirmed email, and otherwise the insert of a student profile with `profile_completed` false exactly when the fetch found none; the user and role are recorded as the chain reaches them |
| OtpEntry.DigitsOf | src/Entry/Otp-verify.jsx:9 | the cleaned input has only digits, is no longer than the input, and keeps every digit of the input |
| OtpEntry.DigitsOfConcat | src/Entry/Otp-verify.jsx:9 | cleaning commutes with concatenation, so the digits keep their order |
| OtpEntry.DigitsOfDigits | src/Entry/Otp-verify.jsx:9 | a string of digits comes through cleaning unchanged |
| OtpEntry.OtpForm.Change | src/Entry/Otp-verify.jsx:8-13 | the cleaned value is stored when it has at most six digits, otherwise the old code stays; the code is always at most six digits |
| OtpEntry.OtpForm.Submit | src/Entry/Otp-verify.jsx:15-24 | goes on to profile completion exactly when the code has six digits, and alerts otherwise |
| OtpEntry.OtpForm.Resend | src/Entry/Otp-verify.jsx:26-29 | changes nothing |
| PasswordReset.Utf16Length | src/Entry/UpdatePassword.jsx:18 | `length` counts UTF-16 code units: between one and two per character, and zero only for the empty string |
| PasswordReset.Utf16LengthConcat | src/Entry/UpdatePassword.jsx:18 | the code-unit length of a concatenation is the sum of the lengths |
| PasswordReset.Utf16LengthOfChar | src/Entry/UpdatePassword.jsx:18 | one character is one code unit in the Basic Multilingual Plane and two above it |
| PasswordReset.Check | src/Entry/UpdatePassword.jsx:13-26 | the checks run in order (empty, then fewer than 6 UTF-16 code units, then mismatch), the first failure's message is reported, and a password passes exactly when it has at least 6 code units and matches its confirmation |
| PasswordReset.AcceptedIsLongAndConfirmed | src/Entry/UpdatePassword.jsx:13-26 | an accepted password is non-empty, has at least 6 code units (so at least 3 characters) and equals its confirmation |
| PasswordReset.ThreeEmojiAccepted | src/Entry/UpdatePassword.jsx:18-26 | three emoji outside the Basic Multilingual Plane make six code units and pass the checks |
| PasswordReset.UpdatePasswordPage.Update | src/Entry/UpdatePassword.jsx:12-44 | the update request is made, with loading set, exactly when every check passes; otherwise the first failure is alerted; afterwards loading is false, and the page goes to `/login` exactly when the service reports no error |
| SubjectStyle.Lower | src/utils/subjectConstants.jsx:21 | lower-casing keeps the length and lower-cases every character |
| SubjectStyle.LowerTwice | src/utils/subjectConstants.jsx:21 | lower-casing twice is lower-casing once |
| SubjectStyle.MissingCharNotContained | src/utils/subjectConstants.jsx:22-41 | a keyword with a letter the name lacks is not found in it |
| SubjectStyle.MissingPairNotContained | src/utils/subjectConstants.jsx:46-74 | a keyword whose first two letters never stand side by side in the name is not found in it |
| SubjectStyle.PrefixContained | src/utils/subjectConstants.jsx:57-60 | a name containing a keyword contains every prefix of it (used for "forensic" and "foren") |
| SubjectStyle.IconOf | src/utils/subjectConstants.jsx:22-42 | the database icon without "radio" in the name is given exactly when the name holds none of the icon keywords |
| SubjectStyle.SubjectIcon | src/utils/subjectConstants.jsx:20-43 | a name whose lower-cased form holds no icon keyword gets the database icon |
| SubjectStyle.IconIgnoresCase | src/utils/subjectConstants.jsx:20-21 | the icon depends on the name only up to letter case |
| SubjectStyle.ForensicBeatsMedicine | src/utils/subjectConstants.jsx:28-30 | a name containing "forensic" gets the forensic icon even when it also says "medicine" |
| SubjectStyle.CommunityBeatsMedicine | src/utils/subjectConstants.jsx:29-30 | a name containing "community" or "psm" gets the shield rather than the medicine icon |
| SubjectStyle.IconDefault | src/utils/subjectConstants.jsx:42 | a name with no keyword gets the database icon |
| SubjectStyle.ForensicMedicineIcon | src/utils/subjectConstants.jsx:20-30 | "Forensic Medicine" gets the forensic icon |
| SubjectStyle.ImageAfterPediatrics | src/utils/subjectConstants.jsx:66-77 | the specialities after pediatrics give the default image exactly when none of their keywords occurs |
| SubjectStyle.ImageOf | src/utils/subjectConstants.jsx:49-77 | the default clinical image is given exactly when the name holds none of the image keywords |
| SubjectStyle.SubjectImage | src/utils/subjectConstants.jsx:45-78 | a name gets the default clinical image exactly when its lower-cased form holds no image keyword |
| SubjectStyle.PediatricAndOrthopedicUrlsDiffer | src/utils/subjectConstants.jsx:63-68 | the pediatrics and orthopedics addresses differ, so the two pictures are distinct |
| SubjectStyle.ImageIgnoresCase | src/utils/subjectConstants.jsx:45-46 | the image depends on the name only up to letter case |
| SubjectStyle.CommunityMedicineImage | src/utils/subjectConstants.jsx:60-74 | the medicine image skips "community" names, which reach the community image |
| SubjectStyle.ImageDefault | src/utils/subjectConstants.jsx:77 | a name with no keyword gets the default clinical image |
| SubjectStyle.OrthopedicsMissesEarlyKeywords | src/utils/subjectConstants.jsx:49-57 | "orthopedics" contains none of the basic and para-clinical keywords |
| SubjectStyle.OrthopedicsMissesClinicalKeywords | src/utils/subjectConstants.jsx:60-62 | "orthopedics" contains none of the medicine, surgery or obstetrics keywords |
| SubjectStyle.OrthopedicsMissesSenseKeywords | src/utils/subjectConstants.jsx:66-67 | "orthopedics" contains none of the eye and ear keywords |
| SubjectStyle.OrthopedicsGetsPediatricImage | src/utils/subjectConstants.jsx:63-68 | as written, "Orthopedics" gets the pediatrics image |
| SubjectStyle.ImageOfCorrected | src/utils/subjectConstants.jsx:63-68 | with the correction, the pediatrics image is given only to names that contain "ped" and not "ortho" |
| SubjectStyle.SubjectImageCorrected | src/utils/subjectConstants.jsx:45-78 | with the correction, a name whose lower-cased form contains "ortho" never gets the pediatrics image |
| SubjectStyle.CorrectedImageSpec | src/utils/subjectConstants.jsx:63-68 | the corrected chain differs from the original only on names containing "ortho", and never gives those the pediatrics image |
| SubjectStyle.OrthopedicsGetsOrthopedicImage | src/utils/subjectConstants.jsx:63-68 | with the correction, "Orthopedics" gets the orthopedics image |

## Left out

- MongoDB, CORS, JSON decoding and `/api/test` are not modelled. Each handler is one atomic step on an in-memory map, so races between concurrent requests are not captured (for example, two `add_question` calls reading the same maximum id).
- Catalog: JSON fields are typed as the model's datatypes. A JSON `null` or a value of another type in `question`, `correct`, `difficulty` or `explanation` is not modelled. `options` may be any non-list value, which `edit_question` stores unchecked.
- Catalog.SubjectStore.GetSubjects: the order of the listing is arbitrary. The store's own order (insertion order) is not modelled.
- Catalog.SubjectStore.EditQuestion: the merge is stated on values. The Python aliasing (the dictionary changed inside the loop is the one written back) is captured only by its effect.
- Flashcard: `handleNextQuestion` is not modelled, and neither is the way React batches its state updates. The queue operations are modelled one by one on an explicit sequence.
- Flashcard: the countdown timer, `handleTimeUp`, `localStorage`, the progress percentage and navigation are not modelled. `Date.now()` is the `now` parameter.
- Flashcard: difficulty strings other than easy/medium/hard are not modelled. With such a string the source's interval lookup would give `undefined`.
- StudySession.FreeTrialCards: `questionLimit` is a natural number where 0 stands for unset. A negative limit, which `slice` would count from the end, is not modelled.
- StudySession.Shuffle: it proves the result is a permutation, not that the permutations are uniformly distributed.
- SubjectStyle.Lower: lower-cases ASCII letters only. Unicode case mapping is not modelled. The strings are sequences of Unicode characters; only the password length check counts UTF-16 code units, as JavaScript's `length` does.
- ImageUrl: the address of each picture is a table. That the 21 addresses are pairwise different is proved only for the pediatrics and orthopedics pictures, because comparing all the long literals exhausts the solver.
- Access.RouteGuard.CheckAuth: an exception thrown by `signOut` would skip the alert. The model treats `signOut` as always returning.
- Access.RouteGuard.CheckAuth: the inserted profile is taken to read back as exactly what was inserted (`role` "student", not completed). The "reported error" and "thrown error" outcomes of the profile fetch are one case, as the source treats them alike.
- Access.RouteGuard.CheckAuth: `navigate`, rendering of the loader and unsubscribing the listener are not modelled.
- PasswordReset.UpdatePasswordPage.Update: the request is the `serviceError` input. An exception thrown by `updateUser` would leave `loading` true, and that case is not modelled. The access token from the URL is not modelled.
- The streak page and the active-users page are not part of this model.

## Findings

| source | as written | input that shows it | evidently intended | confidence | as-written member | corrected member |
|---|---|---|---|---|---|---|
| src/utils/subjectConstants.jsx:63-68 | `getSubjectImage` tests "ped" before "ortho", and "orthopedics" contains "ped" | the name "Orthopedics" gets the pediatrics image | orthopedics subjects get the orthopedics image | not executed | SubjectStyle.OrthopedicsGetsPediatricImage | SubjectStyle.OrthopedicsGetsOrthopedicImage |
