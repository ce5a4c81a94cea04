# uvci-chatbot: a verified model of the session, chat, form and backend bookkeeping logic

uvci-chatbot is a student assistant for the Université Virtuelle de Côte d'Ivoire. It has a
Next.js/React frontend and a FastAPI backend. The backend answers questions with Gemini. It
draws context from a ChromaDB collection of indexed PDF documents, and it keeps accounts in a
SQL `users` table.

This project models, in Dafny, the parts of the system that have sequential, checkable
logic. The proofs are about that model:

- **Client session and route guard.** The `AuthProvider` holds a session with three phases:
  loading, guest and signed in. Its operations are `checkAuth`, `login`, `register` and
  `logout`, and a successful login chooses where to go next. `ProtectedRoute` decides
  between a spinner, a redirect and the protected children.
- **Streaming chat.** `handleSendMessage` runs in the chat page with its chunk, complete and
  error callbacks. The voice toggle runs there too. The message box decides when to send.
- **Forms.** The reset-password, registration and forgot-password forms each check their
  input in a fixed order. The module also covers the password-strength meter and the cascade
  that turns a failed request into a message.
- **Lists.** The admin document list has a PDF gate, delete-by-id and the statistics cards.
  The history page has delete-by-id with a `deletingId` marker, pluralisation and a title
  fallback.
- **Accounts on the backend.** The `users` table is a map keyed by email. The module covers
  registration, login, and the reset-token lifecycle. It also covers JWT issue and check,
  the admin gate, and the stored UVCI credentials.
- **RAG and prompt strings.** This covers chunk ids and metadata, the search projection, the
  context text and its de-duplicated sources, first-wins document listing and chunk
  deletion. It also covers the six-entry prompt history, quota-versus-technical error
  classification and the conversation title with its fallbacks.

Every outside collaborator becomes a parameter that describes what it answered:

- the HTTP API client, Gemini, ChromaDB, PDF extraction and the Moodle check;
- password hashing, JWT signing, SHA-256 and Fernet, which are modelled by constructors that
  keep their argument.

Calls to the outside, router navigations, notifications and speech calls are recorded in
sequence fields, so contracts can say exactly which calls were made.

String lengths follow each language:

- The frontend uses JavaScript's `.length`, in UTF-16 code units (`Text.Utf16Length`), and
  JavaScript's `trim` (`Text.Trim`).
- The backend uses Python's `len`, in code points (`|s|`), and Python's `strip`
  (`Text.PyStrip`).

The `Consistency` module shows where the two length rules diverge for the same
password-reset rule.

Modules, one per source file, plus two shared helpers:

- `Options`: optional values and the truthiness of an optional string.
- `Text`: strings.
- `Lists`: filtering and de-duplication.
- `AuthContext`, `ProtectedRoute`, `ChatPage`, `ChatInput`, `ResetPasswordPage`,
  `RegisterPage`, `ForgotPasswordPage`, `AdminPage`, `HistoryPage`: the frontend.
- `Primitives`, `UserModel`, `AuthService`, `AuthApi`, `SettingsApi`, `RagService`,
  `AiService`: the backend.
- `Consistency`: frontend-against-backend cross-checks.

Where a component updates state in place, it is a class whose methods state the whole new
state. Examples: the `AuthProvider` session, the chat page's state, each form, each list, the
user table and the chunk collection. Pure decisions and string builders are functions with
lemmas beside them.

## Model

| member | source | states |
|---|---|---|
| AuthContext.LoginTarget | frontend/src/contexts/AuthContext.tsx:55-61 | A non-empty redirect path wins. Otherwise the target is `/admin` exactly for the admin role and `/dashboard` exactly for every other role. |
| AuthContext.AuthProvider.constructor | frontend/src/contexts/AuthContext.tsx:27-28 | The provider starts with no user and `isLoading` set, in the Loading phase, keeping the persisted token. |
| AuthContext.AuthProvider.CheckAuth | frontend/src/contexts/AuthContext.tsx:35-47 | With no (or an empty) token there is no profile call and nothing changes. With a token there is one `me` call. If it succeeds the user is the returned profile. If it fails the token is removed and the user is null. `isLoading` always ends false. |
| AuthContext.AuthProvider.Login | frontend/src/contexts/AuthContext.tsx:49-62 | There is exactly one login call. A rejected call leaves token, user and navigations unchanged. A successful one stores the access token, sets the user and pushes `LoginTarget`. Afterwards `isAuthenticated` holds, and `isAdmin` holds iff the role is admin. |
| AuthContext.AuthProvider.Register | frontend/src/contexts/AuthContext.tsx:64-68 | The register call comes first. The login call with the same email and password follows only when registration succeeded. The login has no redirect, hence the role-based target. |
| AuthContext.AuthProvider.Logout | frontend/src/contexts/AuthContext.tsx:70-74 | The token and user are cleared, so neither `isAuthenticated` nor `isAdmin` holds. `/login` is pushed and no API call is made. |
| ProtectedRoute.Decide | frontend/src/components/auth/ProtectedRoute.tsx:16-38 | While loading: a spinner and no push. Children render iff loaded, authenticated and (not admin-only or role admin). Nothing renders iff a push is issued. `/login` is pushed iff loaded and unauthenticated. `/` is pushed iff authenticated but not admin on an admin-only page, so an unauthenticated viewer is never sent to `/`. |
| ProtectedRoute.DecideDefault | frontend/src/components/auth/ProtectedRoute.tsx:12-38 | With the default `requireAdmin = false`, every signed-in viewer sees the children and unauthenticated viewers are sent to `/login`. |
| ProtectedRoute.AdminPageAdmitsExactlyAdmins | frontend/src/components/auth/ProtectedRoute.tsx:16-38 | On a resolved `AuthProvider` session, an admin-only page renders its children iff `isAdmin`. Every other viewer is redirected with nothing rendered. |
| ChatPage.AcceptsSendIff | frontend/src/app/page.tsx:33 | A send is accepted iff not loading and the text has a character that is not JavaScript whitespace. |
| ChatPage.ChatController.constructor | frontend/src/app/page.tsx:14-20 | No messages, not loading, no conversation id, empty streaming text, not recording. |
| ChatPage.ChatController.SendMessage | frontend/src/app/page.tsx:32-92 | Blank text, or any text while loading, changes no message and makes no request. An accepted send appends exactly one user message with the untrimmed text and clears the streaming text and the buffer. It sends one request with the current conversation id. `isLoading` is true, or false again when the stream failed to start, and then no assistant message is added. |
| ChatPage.ChatController.OnChunk | frontend/src/app/page.tsx:54-57 | The fragment is appended to the buffer. The streaming text becomes the concatenation of all fragments received so far, in arrival order, and the message list is unchanged. |
| ChatPage.ChatController.OnComplete | frontend/src/app/page.tsx:58-71 | Exactly one assistant message is appended. Its content is the concatenation of all fragments, its id the metadata's message id, and its sources empty. The conversation id takes the metadata's id only when the send saw none. Streaming text is cleared and `isLoading` is false. The captured id, requests and chunks are unchanged. |
| ChatPage.ChatController.OnError | frontend/src/app/page.tsx:76-87 | Exactly one assistant message with the fixed text `⚠️ Erreur de connexion au serveur.` is appended, whatever the error. Streaming text is cleared and `isLoading` is false. The conversation ids, requests and chunks are unchanged. |
| ChatPage.ChatController.ExchangeWithReply | frontend/src/app/page.tsx:32-71 | A send followed by all fragments and the completion appends the user message and then one reply holding the fragments joined in order. The conversation id is bound once: a truthy id already present is kept. |
| ChatPage.ChatController.ToggleRecording | frontend/src/app/page.tsx:94-108 | Recording flips. A stop call is made when it was on and a start call when it was off. Messages, loading flag, requests, stream buffer and both conversation ids are unchanged. |
| ChatPage.ChatController.OnTranscript | frontend/src/app/page.tsx:100-105 | A recognised transcript is sent under exactly the rules for typed text: when refused nothing changes; when accepted one user message and one request with the current conversation id are added, the buffer is cleared and the loading flag follows the stream start. Recording then ends, with no speech call. |
| ChatPage.ChatController.OnListeningEnded | frontend/src/app/page.tsx:100-105 | The end and error callbacks of recognition stop recording. Messages, loading flag, requests, speech calls, stream buffer and both conversation ids are unchanged. |
| ChatPage.ConcatAppend | frontend/src/app/page.tsx:54-57 | Joining two runs of fragments is joining each run, one after the other. |
| ChatPage.ConcatLength | frontend/src/app/page.tsx:54-57 | The text joined from a prefix of the fragments is never longer than the text joined from all of them. |
| ChatInput.SendDisabledMatchesPage | frontend/src/components/chat/ChatInput.tsx:76 | The send button is disabled iff loading or the input is all JavaScript whitespace. That is exactly when the chat page would refuse the text. |
| ChatInput.RecordButtonMatchesPage | frontend/src/components/chat/ChatInput.tsx:35 | `RecordDisabled` holds iff speech is unsupported or a stream is in flight. While the button is enabled, the page sends a transcript iff it has a non-whitespace character. When loading disables the button, the page would refuse any transcript too. |
| ChatInput.ChatInputBox.constructor | frontend/src/components/chat/ChatInput.tsx:19 | The box starts empty. |
| ChatInput.ChatInputBox.Edit | frontend/src/components/chat/ChatInput.tsx:59 | The input becomes the typed value. |
| ChatInput.ChatInputBox.Submit | frontend/src/components/chat/ChatInput.tsx:21-27 | The untrimmed input is forwarded iff the send button would be enabled. The box is cleared after forwarding and left unchanged otherwise. |
| ChatInput.ChatInputBox.KeyDown | frontend/src/components/chat/ChatInput.tsx:60-65 | Enter without Shift behaves as Submit. Any other key, Shift+Enter included, forwards nothing and leaves the input unchanged. |
| ResetPasswordPage.ValidationError | frontend/src/app/reset-password/page.tsx:33-46 | The checks run in order: missing or empty token, then fewer than 8 UTF-16 units, then mismatch. The first failure is reported. There is no error iff all three pass. |
| ResetPasswordPage.SubmitEnabledPassesChecks | frontend/src/app/reset-password/page.tsx:195 | The submit button is enabled iff nothing is being submitted and the form passes every check of the submit handler. |
| ResetPasswordPage.MismatchHintDisablesSubmit | frontend/src/app/reset-password/page.tsx:188-190 | `ShowsMismatchHint` holds iff the confirmation is non-empty and differs from the new password. Whenever the hint shows, the button is disabled and the submit checks fail, with the mismatch message once the token and the length pass. |
| ResetPasswordPage.PasswordStrength | frontend/src/app/reset-password/page.tsx:63-71 | Level 0 iff empty. Level 1 iff 1-7 units. Level 3 iff at least 12 units with an upper-case letter, a lower-case letter and a digit. Otherwise level 2. The label and colour are the page's pair for each level. |
| ResetPasswordPage.StrengthAboveWeakIsLongEnough | frontend/src/app/reset-password/page.tsx:63-71 | The meter shows level 2 or more iff the password meets the form's 8-unit minimum. |
| ResetPasswordPage.ResetPasswordForm.constructor | frontend/src/app/reset-password/page.tsx:22-26 | Mounting with a missing or empty token shows the mount error, and with a token no error. |
| ResetPasswordPage.ResetPasswordForm.SetPasswords | frontend/src/app/reset-password/page.tsx:127-172 | The two fields take the typed values and nothing else changes. |
| ResetPasswordPage.ResetPasswordForm.HandleSubmit | frontend/src/app/reset-password/page.tsx:28-61 | A failed check sets its message and makes no request. Passing checks make exactly one request. On acceptance: success, no error, and a redirect to `/login` scheduled after 3000 ms. On rejection: the server detail, or the fixed fallback. `isSubmitting` ends false after a request. An error is shown iff there is no success. |
| RegisterPage.ValidationError | frontend/src/app/register/page.tsx:22-30 | A mismatch is reported before the length check. There is no error iff the passwords match and have at least 6 UTF-16 units. |
| RegisterPage.RegisterForm.constructor | frontend/src/app/register/page.tsx:9-16 | Empty fields, no error, not submitting, and the role `student`. |
| RegisterPage.RegisterForm.SelectRole | frontend/src/app/register/page.tsx:63-74 | The role becomes `admin` or `student` and stays one of the two. |
| RegisterPage.RegisterForm.SetFields | frontend/src/app/register/page.tsx:99-144 | The four text fields take the typed values. |
| RegisterPage.RegisterForm.HandleSubmit | frontend/src/app/register/page.tsx:18-39 | A failed check sets its message and makes no call. Otherwise `register` is called with exactly {full name, email, password, role}. On success the form stays submitting while the provider navigates. On failure it shows the fixed message and stops submitting. |
| ForgotPasswordPage.ErrorText | frontend/src/app/forgot-password/page.tsx:35-44 | With a server answer: its non-empty detail, else its non-empty message, else the fallback, and the fallback also when the answer has no data. With a request and no answer: the unreachable-server text. Otherwise: the error's message, else the fallback. Never empty. |
| ForgotPasswordPage.ForgotPasswordForm.constructor | frontend/src/app/forgot-password/page.tsx:9-12 | Empty email, no error, no success, not submitting. |
| ForgotPasswordPage.ForgotPasswordForm.SetEmail | frontend/src/app/forgot-password/page.tsx:105 | The email takes the typed value. |
| ForgotPasswordPage.ForgotPasswordForm.HandleSubmit | frontend/src/app/forgot-password/page.tsx:14-48 | A blank email sets the error and sends nothing. Otherwise the untrimmed email is sent exactly once. A truthy answer is success, a falsy one the fallback error, and a rejection `ErrorText`. `isSubmitting` ends false. Success holds iff no error is shown. |
| ForgotPasswordPage.BlankEmailIff | frontend/src/app/forgot-password/page.tsx:19-22 | The email is refused as blank iff all its characters are whitespace. |
| AdminPage.FindIndex | frontend/src/app/admin/page.tsx:68 | The position of the first document with the id, or the list's length when there is none. |
| AdminPage.Find | frontend/src/app/admin/page.tsx:68 | There is no result iff no document has the id. A result has that id, is in the list and is the first document with it. |
| AdminPage.DialogName | frontend/src/app/admin/page.tsx:67-69 | The name quoted is the file name of the first document with the id when that name is non-empty, and `ce document` when there is no such document or its name is absent or empty. |
| AdminPage.DeletePrompt | frontend/src/app/admin/page.tsx:68-70 | The dialog is the fixed lead, the quoted name and the fixed tail, so its length is theirs added up. |
| AdminPage.DeletePromptQuotesName | frontend/src/app/admin/page.tsx:69 | The dialog contains the chosen name between double quotes. |
| AdminPage.DeletePromptDeterminesName | frontend/src/app/admin/page.tsx:69 | Two dialogs are equal exactly when they quote the same name. |
| AdminPage.UnlistedAndUnnamedPromptAlike | frontend/src/app/admin/page.tsx:67-69 | An id that is not listed and a document whose file name is absent or empty give the same dialog, which says `ce document`. |
| AdminPage.VectorCount | frontend/src/app/admin/page.tsx:100 | The sum over an empty list is 0, and the sum is at least every document's chunk count. |
| AdminPage.IndexedStat | frontend/src/app/admin/page.tsx:99 | The card shows all digits, and reading them back gives the number of documents. |
| AdminPage.VectorStat | frontend/src/app/admin/page.tsx:100 | The card shows all digits, and reading them back gives the sum of the chunk counts, an absent count counting as 0. |
| AdminPage.VectorCountAppend | frontend/src/app/admin/page.tsx:100 | The sum over two lists is the sum of their sums. |
| AdminPage.VectorCountAfterDelete | frontend/src/app/admin/page.tsx:75-76 | A delete takes off the figure exactly the chunk counts of the documents with that id. |
| AdminPage.DocumentList.constructor | frontend/src/app/admin/page.tsx:25-28 | No documents, not loading, not uploading, no status. |
| AdminPage.DocumentList.FetchDocuments | frontend/src/app/admin/page.tsx:34-43 | One list call. The list is replaced on success and kept on failure. Loading ends false. |
| AdminPage.DocumentList.HandleFileUpload | frontend/src/app/admin/page.tsx:45-65 | No selection changes nothing. A non-PDF type sets the error status and makes no upload call. A PDF is uploaded once. Success sets the success status and refreshes the list. Failure sets the error status and keeps the list. `isUploading` ends false. `isLoadingDocs` ends false after the refresh, and is unchanged when nothing is uploaded or the upload fails. |
| AdminPage.DocumentList.HandleDelete | frontend/src/app/admin/page.tsx:67-94 | A declined confirmation changes nothing and makes no call. A confirmed one makes one delete call. Success keeps exactly the documents with other ids and notifies success. Failure keeps the list and notifies the error. |
| AdminPage.DeleteRemovesExactlyThatId | frontend/src/app/admin/page.tsx:75-76 | After the filter: no document has the id, every other document is kept, and the survivors keep their order. |
| HistoryPage.Plural | frontend/src/app/history/page.tsx:127 | The suffix is `s` iff the count exceeds one, and empty otherwise. |
| HistoryPage.CountLineSingular | frontend/src/app/history/page.tsx:127-152 | A count of zero or one reads `n conversation trouvée` and `n message`, with no plural mark. |
| HistoryPage.CountLinePlural | frontend/src/app/history/page.tsx:127-152 | Any count above one reads `n conversations trouvées` and `n messages`, with both nouns marked plural. |
| HistoryPage.DisplayTitle | frontend/src/app/history/page.tsx:146 | A non-empty title is shown as is. A missing or empty one is shown as `Sans titre`. The result is never empty. |
| HistoryPage.ConversationList.constructor | frontend/src/app/history/page.tsx:12-14 | No conversations, loading, no `deletingId`. |
| HistoryPage.ConversationList.LoadConversations | frontend/src/app/history/page.tsx:20-30 | The list is replaced on success and kept on failure. Loading ends false. |
| HistoryPage.ConversationList.HandleDelete | frontend/src/app/history/page.tsx:32-60 | The dialog asks the fixed question. A declined confirmation changes nothing, `deletingId` included. A confirmed one holds the id in `deletingId` during the call and clears it afterwards. Success keeps exactly the other conversations; failure keeps the list. |
| HistoryPage.DeleteKeepsOthersInOrder | frontend/src/app/history/page.tsx:39-40 | After the filter: no conversation has the id, every other one is kept, and their order is preserved. Deleting an id that is not listed leaves the list unchanged. |
| Primitives.VerifyPasswordIff | backend/app/services/auth_service.py:24-28 | A stored hash verifies exactly the password it was made from. |
| Primitives.Encrypt | backend/app/utils/crypto.py:21-26 | An empty text gives no ciphertext. Any other text gives a ciphertext of that text. |
| AuthService.CreateAccessToken | backend/app/services/auth_service.py:30-38 | The payload is the caller's claims plus `exp`. `exp` is now plus the delta when the delta is given and non-zero, and now plus 15 minutes otherwise. |
| AuthService.Decode | backend/app/services/auth_service.py:46-47 | A token decodes iff it is well formed and its `exp`, if present, is an instant not yet passed. The claims come back unchanged. |
| AuthService.GetCurrentUser | backend/app/services/auth_service.py:40-57 | The user is found iff the token decodes, has a string `sub`, and that email is in the table. Every failure is the same 401. |
| AuthService.GetCurrentAdmin | backend/app/services/auth_service.py:59-65 | An admin is returned unchanged. Any other role gives 403, and an earlier 401 passes through. |
| AuthService.ResetTokenVerifies | backend/app/services/auth_service.py:71-77 | A token verifies against its own hash, and verification is exactly equality of hashes. |
| AuthService.IssuedTokenAuthenticates | backend/app/services/auth_service.py:30-57 | A token issued for a user in the table authenticates that user up to its expiry and gives 401 afterwards. |
| AuthApi.NewUser | backend/app/api/auth.py:25-31 | The new row keeps the email, name and requested role. It is active, holds a hash that verifies the password (never the plaintext), and has no reset token and no UVCI credentials. |
| AuthApi.Register | backend/app/api/auth.py:16-36 | A taken email gives 400 and adds nothing. Otherwise exactly one row is added under that email with the next id. |
| AuthApi.Login | backend/app/api/auth.py:38-58 | Rejection happens iff the email is unknown or the password does not verify, with the same 401 in both cases. Success returns a bearer token with `sub` and `role` expiring after 24 hours, and the user. |
| AuthApi.LoginTokenIdentifiesUser | backend/app/api/auth.py:38-58 | The token from a successful login authenticates that user for 24 hours and no longer. |
| AuthApi.WithResetToken | backend/app/api/auth.py:80-86 | The record stores the hash of the generated token, never the raw token, with expiry now plus 30 minutes. Nothing else changes. |
| AuthApi.ForgotPassword | backend/app/api/auth.py:64-112 | The message is identical whether or not the email exists. An unknown email changes nothing and sends nothing. A known one updates only that record and sends the raw token. |
| AuthApi.ResetValidation | backend/app/api/auth.py:123-134 | A mismatch is reported before the length check. There is no error iff the passwords match and have at least 8 code points. |
| AuthApi.AfterReset | backend/app/api/auth.py:152-155 | The record gets a hash that verifies the new password, and its token and expiry are cleared. Nothing else changes. |
| AuthApi.ResetTokenSingleUse | backend/app/api/auth.py:137-155 | A record that has been reset matches no token at any time. |
| AuthApi.ResetPassword | backend/app/api/auth.py:114-159 | Failed checks come before any lookup and change nothing. With no row whose stored hash equals the token's and whose expiry is strictly after now, the answer is 400 and nothing changes. Success happens iff such a row exists, and then exactly that row is reset. |
| AuthApi.ResetLifecycle | backend/app/api/auth.py:64-159 | A token requested and used within 30 minutes resets the password once. A second use is refused, and the new password logs in. |
| SettingsApi.Status | backend/app/api/settings.py:12-21 | The user counts as connected iff the stored username is non-empty, with `Connecté` or `Non connecté` to match. |
| SettingsApi.WithCredentials | backend/app/api/settings.py:40-44 | The record stores the username and the encrypted password, never the plaintext. Nothing else changes. |
| SettingsApi.WithoutCredentials | backend/app/api/settings.py:58-60 | Both credential fields are cleared and nothing else changes. |
| SettingsApi.StatusAfterUpdate | backend/app/api/settings.py:40-50 | After an update, a later status reports connected iff the username is non-empty, with that username. |
| SettingsApi.StatusAfterDelete | backend/app/api/settings.py:52-62 | After a delete, a later status reports not connected with no username. |
| SettingsApi.UpdateCredentials | backend/app/api/settings.py:23-50 | An unauthenticated request gives 401, and rejected credentials give 400; in both cases the table is unchanged. Accepted credentials update only the current user's record and answer connected with the given username. |
| SettingsApi.DeleteCredentials | backend/app/api/settings.py:52-62 | An unauthenticated request gives 401 with no change. Otherwise only the current user's credentials are cleared. |
| RagService.NewEntries | backend/app/services/rag_service.py:70-89 | Chunk i of n gets id `{document_id}_chunk_{i}`, its text, and metadata with the id, the file name, index i and total n. |
| RagService.ChunkIdInjective | backend/app/services/rag_service.py:70 | Two chunk ids are equal only for the same document and the same index. |
| RagService.BatchIdsDistinct | backend/app/services/rag_service.py:70 | The ids of one batch are pairwise distinct. |
| RagService.Fresh | backend/app/services/rag_service.py:81-86 | The part of a batch the collection stores is exactly its entries whose ids are not present yet, in batch order. |
| RagService.AppendFreshDistinct | backend/app/services/rag_service.py:81-86 | Adding a batch keeps the collection's ids distinct. |
| RagService.Collection.IndexDocument | backend/app/services/rag_service.py:38-93 | A missing text, a text under 100 characters, or a failure returns 0 and adds nothing. Otherwise it returns the number of chunks and appends the new entries of the batch. The collection's ids stay distinct. |
| RagService.Collection.DeleteDocumentChunks | backend/app/services/rag_service.py:174-189 | The answer is true iff no failure occurred and some chunk belongs to the document. Then exactly the document's chunks are removed. Otherwise nothing changes. |
| RagService.Search | backend/app/services/rag_service.py:95-126 | A failure, an empty answer, or a row without a file name gives ([], []). Otherwise the chunks are the answer's texts, and source i is the file name of row i. |
| RagService.GetRagContext | backend/app/services/rag_service.py:128-149 | No chunks gives ("", []). Otherwise the context is the `\n---\n`-join, in order, of `[Document: s_i]\n` + c_i + `\n`. The sources have no duplicates and the same elements as the search sources. |
| RagService.ContextMentionsEveryChunk | backend/app/services/rag_service.py:144-148 | Every retrieved chunk appears in the context under its file name. |
| RagService.Summaries | backend/app/services/rag_service.py:157-169 | One summary per distinct document id. Every metadata entry naming a document is covered, and every summary was built from such an entry. Defaults are `Inconnu` and 0. |
| RagService.SummariesFirstWins | backend/app/services/rag_service.py:160-163 | The summary listed for a document is built from the first metadata entry naming it. |
| RagService.ListDocuments | backend/app/services/rag_service.py:151-172 | The loop builds exactly the first-wins summaries. A failure gives []. |
| AiService.LastWindow | backend/app/services/ai_service.py:113 | The window is the last six entries, or all of them when there are fewer, in order. |
| AiService.Label | backend/app/services/ai_service.py:114 | Role `user` is labelled `Étudiant`, and every other role `Assistant`. |
| AiService.OlderEntriesAreDropped | backend/app/services/ai_service.py:111-115 | Entries before the last six never reach the prompt. |
| AiService.PromptEndsWithCue | backend/app/services/ai_service.py:117-123 | Every prompt ends with `Étudiant: {message}`, a blank line and `Assistant UVCI:`. |
| AiService.BuildFullPrompt | backend/app/services/ai_service.py:103-123 | The loop builds the prompt around exactly the history lines of the last six entries. A missing or empty context gives an empty history. |
| AiService.ErrorReply | backend/app/services/ai_service.py:158-161 | The quota reply is given iff the error text contains `429` or its lower-cased form contains `quota`; otherwise the technical reply. |
| AiService.StatusCodeIsQuota | backend/app/services/ai_service.py:158-161 | An error text containing `429` always gives the quota reply. |
| AiService.GenerateResponseStream | backend/app/services/ai_service.py:125-161 | With no model, exactly one unavailability message is yielded. Otherwise the fragments with text are yielded in order, each as its text, then the classified reply if an exception ended the stream. Nothing yielded is empty. |
| AiService.GenerateResponse | backend/app/services/ai_service.py:163-190 | The stripped answer text, or the classified reply for the error raised. With no model, the classified reply for the AttributeError that call raises. |
| AiService.NoModelIsTechnical | backend/app/services/ai_service.py:163-190 | With no model, `generate_response` answers with the technical reply, not the quota reply. |
| AiService.CleanTitle | backend/app/services/ai_service.py:212-213 | The cleaned title is no longer than the answer and does not end with `.`. |
| AiService.GenerateConversationTitle | backend/app/services/ai_service.py:192-217 | With no model: the first 50 characters of the first message. With an answer: its cleaned text, at most 100 characters. After an exception: the first 50 characters plus `...` when longer than 50, else the message unchanged. |
| AiService.TitleFallbacks | backend/app/services/ai_service.py:195-217 | Every fallback title has at most 53 characters and starts with the first message as far as it goes. A message of 50 characters or fewer is kept unchanged. |
| Consistency.ResetChecksAgreeOnBmp | backend/app/api/auth.py:123-134 | For passwords in the Basic Multilingual Plane, the reset page's checks and the endpoint's checks accept the same password pairs. |
| Consistency.EndpointAcceptedImpliesPageAccepted | backend/app/api/auth.py:123-134 | Every password pair the endpoint's checks accept, the page accepts too. |
| Consistency.AstralPasswordPassesPageOnly | frontend/src/app/reset-password/page.tsx:38 | Four emoji count as 8 UTF-16 units. The page therefore sends them, and the endpoint answers that the password is too short. |

## Left out

- The auth API client, chat API client and documents API client are not part of this model. Their answers are parameters, and their calls are recorded in sequence fields.
- `localStorage`, the router, `setTimeout` and `window.confirm` become fields and parameters. Toast notifications are modelled the same way.
- Timers: the 3-second redirect after a reset is recorded with its delay, not run. The 10-second speech reset and the `time.sleep` between streamed fragments are left out.
- React render and effect scheduling, and async interleaving. Each callback is a discrete event on one thread, and an exchange is the send, its fragments in order, then the completion.
- AdminPage.DocumentList.HandleFileUpload: the list refresh after a successful upload is modelled as finished before `isUploading` drops. In admin/page.tsx:60 `fetchDocuments()` is called without `await`, so the flag can drop first. The final state is the same.
- ChatPage.ChatController.OnComplete: the completion callback is modelled with the conversation id captured at send time, as the source's closure sees it. The model does not capture completions of two sends overlapping in time.
- ChatPage.ChatController.SendMessage: a `sendMessageStream` that throws after some callbacks have fired is not modelled. Only the two cases are modelled: a stream that never starts, or one that runs to completion or error.
- ChatPage.ChatController.OnTranscript: the stale `handleSendMessage` closure held by the speech callbacks is modelled as a call on the current state.
- The speech service internals (recognition, synthesis, browser support detection) and the `isSpeaking` and `audioSupport` state are left out.
- Gemini, ChromaDB, SentenceTransformer embeddings and the PDF processor are left out. Their results (answer text, error text, query rows, metadata, extracted text, chunks) are parameters.
- The system prompt built by `_build_system_prompt` from the knowledge base is a parameter of `AiService.BuildFullPrompt`.
- RagService.Collection.IndexDocument: the collection's `add` is modelled as storing only the ids it does not hold yet. An exception for an empty batch is not distinguished, because the answer is 0 either way with nothing added.
- RagService.GetRagContext: `list(set(sources))` has no specified order. The contract states only the elements and the absence of duplicates, not the order.
- Password hashing (passlib Argon2), JWT signing and the HS256 key (python-jose), SHA-256 and Fernet are constructors that keep their argument. Only equality and "not the plaintext" are modelled.
- `decrypt` in backend/app/utils/crypto.py: the encrypt and decrypt round trip is the library's promise, not this code's.
- AuthService.Decode: follows python-jose's expiry rule. It does not model signature or algorithm checks, or claims other than `exp`.
- AuthApi.ResetPassword: the query's `.first()` row is not specified by the code. The model may reset any matching row.
- Randomness: `secrets.token_urlsafe(32)` is the `generated` parameter. The clocks `datetime.utcnow()` and `new Date()` are the `now` parameters, in whole seconds on the backend and milliseconds on the frontend.
- E-mail sending, the console and file copies of the reset link, Moodle scraping and the scheduler are left out.
- The dashboard endpoint, the login, dashboard and settings pages, and the presentational components are left out. These are markup and display defaults.
- FastAPI request validation (the 422 error lists) and the SQL session's commit and refresh are left out. The `users` table is a map keyed by email.
- `read_users_me`, which returns the current user, is left out. This is `AuthService.GetCurrentUser` itself.
