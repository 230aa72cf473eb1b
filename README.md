# MessageApp data layer in Dafny

MessageApp is an iOS chat and photo-feed client built on UIKit and Firebase.
Its logic lives in view controllers. This project models the sequential data
layer underneath them, and proves what that layer promises:

- **Record decoders.** `Chat.init?` and `Messages.init?` reject missing or
  ill-typed fields and apply their defaults. The `Codable` decoding of posts
  and comments is modelled too.
- **Chat list.** Chats come from a query result, each with its "other
  participant" and a table of participant names. A search filters them.
- **Chat thread.** Send makes two dependent writes: the message, then the
  chat summary. Delete overwrites the summary. Only the sender may delete. A
  snapshot listener replaces the thread.
- **New chat.** Users already chatted with are excluded. The chat record and a
  placeholder message are written.
- **Feed.** The like toggle, the greeting, the post and comment payloads, the
  comment-delete rule and the profile target.
- **Forms.** Signup, login, new-post and comment validation. Signup writes with
  replace; profile edit writes with merge.

How the model is set up:

- **The Firestore store** is the value `Firestore.Db`: one map per collection
  (id to field record). A chat's `messages` and a post's `comments` are
  sub-maps keyed by the parent id.
- **Field values** (`Firestore.Value`) are strings, timestamps (integers),
  arrays, numbers, booleans and null. A Swift `as? String` or `as? [String]`
  cast is a partial getter on that type.
- **Asynchronous calls** are sequential steps. Each completion's outcome is a
  parameter: a success flag, an error text, a result of the query, or the
  generated document id.
- **The signed-in user** is an `Option<string>`. `Timestamp()` values are
  integer parameters.
- **Screens whose fields change** are classes: `ChatListScreen`, `ChatScreen`,
  `AddChatScreen`, `FeedScreen`, `PostPreviewScreen`, `NewPostScreen`,
  `SignupScreen`, `LoginScreen`. Their methods list what they modify.
- **Store writes** return the new `Db`.

The model follows the code where it departs from the app's documented
behaviour:

- the chat list is never sorted;
- whitespace-only messages are sent;
- the deletion notice is written even when the deleted message was not the
  newest;
- a failed participant lookup records the name `""`, not "Unknown".

## Model

| member | source | states |
|---|---|---|
| Chats.DecodeChat | MessageApp/Models/Chat.swift:17-29 | Decoding succeeds exactly when `participants` is an array of strings, `lastMessage` a string and `lastMessageTimestamp` a timestamp. The id is the argument. The three fields are copied unchanged, and lists of any length are accepted. |
| Chats.ChatRoundTrip | MessageApp/Models/Chat.swift:17-29 | A record holding a chat's three fields decodes back to that chat. |
| Chats.DecodeChatReadsOnlyItsKeys | MessageApp/Models/Chat.swift:17-29 | Two documents that agree on the three keys decode alike. No other key affects the result. |
| Chats.SummaryAfterMerge | MessageApp/ChatVC/ChatVC/ChatViewController.swift:126-131 | Merging a new summary into a decodable chat gives the same chat with only the last message and its time replaced. |
| Messages.DecodeMessage | MessageApp/Models/Message.swift:21-37 | Decoding succeeds iff senderID, recipientID, text and chatID are strings and timestamp is a timestamp. Those fields are copied and the id is the argument. `messageType` is the stored string, or "text" when it is missing or not a string. |
| Messages.EmptyRecordRejected | MessageApp/Models/Message.swift:22-28 | The empty dictionary is not a message. |
| Messages.DecodedMessageOrigin | MessageApp/ChatVC/ChatVC/ChatViewController.swift:213-218 | Every message in a thread comes from a snapshot document with its id that decodes to it. |
| Messages.ThreadInTimestampOrder | MessageApp/ChatVC/ChatVC/ChatViewController.swift:206-220 | A snapshot ordered by timestamp gives a thread in ascending timestamp order. |
| Records.OptionalString | MessageApp/Models/Comment.swift:18-19 | An optional `Codable` string is nil when its key is absent or null, the string when it holds one, and a decoding failure otherwise. |
| Records.DecodePost | MessageApp/Models/Posts.swift:11-20 | Decoding succeeds exactly when the five strings, the timestamp and the likes list are present and typed. The id is the document's. imageURL, caption, authorID, authorName, authorImgURL, the likes and the timestamp are the stored values. |
| Records.DecodeComment | MessageApp/Models/Comment.swift:12-28 | Decoding succeeds exactly when userID and text are strings, `timestamp` is a timestamp, and the two optional names are nil or strings. The id is the document's. userID, text, the timestamp and the two optional names are the stored values. |
| Firestore.GetString | MessageApp/Models/Chat.swift:19 | `as? String` succeeds exactly when the field is present and holds a string, and returns that string. |
| Firestore.GetTimestamp | MessageApp/Models/Chat.swift:20 | `as? Timestamp` succeeds exactly when the field is present and holds a timestamp, and returns it. |
| Firestore.Strings | MessageApp/Models/Chat.swift:18 | `as? [String]` succeeds exactly when every element is a string, and keeps them in order. |
| Firestore.StringArrayRoundTrip | MessageApp/Models/Chat.swift:18 | A stored list of strings casts back to the same list. |
| Firestore.GetStringList | MessageApp/ChatVC/AddVC/AddNewChatViewController.swift:112 | The string-list cast succeeds only on an array field. |
| Firestore.StringOr | MessageApp/ChatVC/AddVC/AddNewChatViewController.swift:79-81 | `as? String ?? default` gives the stored string, or the default when the field is missing or not a string. |
| Firestore.Merge | MessageApp/HomeVC/Profile/ProfileEditViewController.swift:152-154 | `updateData` writes the payload's fields over the stored ones and keeps every other stored field. |
| Firestore.UpdateData | MessageApp/HomeVC/Profile/ProfileEditViewController.swift:152-160 | `updateData` changes the collection only when the call succeeds and the document exists. Otherwise the collection is unchanged. |
| Firestore.PutChild | MessageApp/ChatVC/ChatVC/ChatViewController.swift:120 | Adding a document to a sub-collection sets that one entry and leaves the other parents' documents alone. |
| Firestore.RemoveChild | MessageApp/ChatVC/ChatVC/ChatViewController.swift:173-176 | Deleting a document from a sub-collection removes exactly that id and leaves the other parents alone. |
| ChatList.LookupParticipant | MessageApp/HomeVC/MainViewController.swift:231-248 | A failed lookup or a missing document gives "" and "". An existing document gives its name (or "Unknown") and its picture (or ""). |
| ChatList.UnknownOnlyForNamelessUser | MessageApp/HomeVC/MainViewController.swift:239-244 | "Unknown" is recorded only for an existing document with no string name, or one whose name is "Unknown". |
| ChatList.ParticipantIdsMembership | MessageApp/HomeVC/MainViewController.swift:154-163 | An id is in the participant set iff some fetched chat lists it. |
| ChatList.DetailsTable | MessageApp/HomeVC/MainViewController.swift:142-169 | The table's keys are exactly the participant ids of the fetched chats. |
| ChatList.ParticipantsOfDecodedChat | MessageApp/HomeVC/MainViewController.swift:150-154 | For a decodable document, the list the loop walks (`participants as? [String] ?? []`) is the chat's own list. |
| ChatList.RecordLookups | MessageApp/HomeVC/MainViewController.swift:157-163 | The inner loop adds every participant's id to the table's keys and keeps the existing keys. Every entry stays the outcome of looking its id up. |
| ChatList.ChatListScreen.FetchChats | MessageApp/HomeVC/MainViewController.swift:125-174 | Without a user or a result, nothing changes. Otherwise `chats` becomes the decodable documents in result order, unsorted. The participant table is rebuilt from scratch, with an entry for every participant of those chats, the current user included. |
| ChatList.FirstOther | MessageApp/HomeVC/MainViewController.swift:185 | Returns the first participant different from the current user. None means every participant is that user. A missing user differs from everyone. |
| ChatList.RowShowsFirstOtherParticipant | MessageApp/HomeVC/MainViewController.swift:180-215 | A row shows "Unknown"/"N/A" exactly when every participant is the current user. Otherwise it shows the first other participant, called "Unknown" when the table lacks that id, with the chat's last message. |
| ChatList.SearchChatsSpec | MessageApp/HomeVC/MainViewController.swift:217-224 | The search result is the order-preserving sublist of chats whose lowercased other-participant name contains the lowercased query. The empty query matches no chat, because Foundation's `contains` finds the empty string nowhere. |
| ChatList.ChatListScreen.SearchTextDidChange | MessageApp/HomeVC/MainViewController.swift:217-224 | `isSearching` holds iff the query is non-empty. `filteredChats` is the search result. The visible list is `chats` for the empty query, since the screen is then not searching. |
| ChatList.ChatListScreen.NumberOfRows | MessageApp/HomeVC/MainViewController.swift:176-178 | The row count is that of `filteredChats` while searching and of `chats` otherwise. |
| ChatList.OpenChat | MessageApp/HomeVC/MainViewController.swift:257-280 | The segue always happens. The chat is handed over iff there is a user and some other participant; otherwise the thread screen opens with no chat. What is handed over is the chat, its first other participant (the one its row shows), and that participant's table name and picture, with "Unknown" and "" when absent. |
| ChatList.ChatListScreen.DidSelectRow | MessageApp/HomeVC/MainViewController.swift:250-254 | The chat opened comes from `filteredChats` while searching and from `chats` otherwise. |
| Thread.PayloadRoundTrip | MessageApp/ChatVC/ChatVC/ChatViewController.swift:111-118 | The payload send builds decodes to a message with the same sender, recipient, text, time and chat id, of type "text". |
| Thread.SendWrites | MessageApp/ChatVC/ChatVC/ChatViewController.swift:101-138 | Empty text, no user, no chat or a failed add means no write. Only the chat and its messages are ever written. |
| Thread.SentMessageInThread | MessageApp/ChatVC/ChatVC/ChatViewController.swift:111-135 | After a successful add, the thread holds a document that decodes to the sent message, from the current user to the other participant (or ""). This holds whatever the summary update does, and the rest of the store's threads are kept. A failed update leaves the chats as they were. |
| Thread.SummaryFollowsSend | MessageApp/ChatVC/ChatVC/ChatViewController.swift:126-135 | After both writes succeed, the stored chat decodes with the sent text and the second timestamp as its summary. |
| Thread.ChatScreen.SendPressed | MessageApp/ChatVC/ChatVC/ChatViewController.swift:101-138 | The store becomes `SendWrites` of the current input. The input is cleared exactly when the guards pass and the add succeeds. |
| Thread.DeleteWrites | MessageApp/ChatVC/ChatVC/ChatViewController.swift:161-180 | Delete writes only the chats and messages. |
| Thread.DeleteEffect | MessageApp/ChatVC/ChatVC/ChatViewController.swift:162-180 | A successful delete removes exactly that message document and leaves the other threads alone. A successful update of a decodable chat sets its last message to the deletion notice, and its time to the delete's time. |
| Thread.DeleteSummaryIgnoresWhichMessage | MessageApp/ChatVC/ChatVC/ChatViewController.swift:162-171 | The summary written is the same whichever message of the chat is deleted. |
| Thread.DeletableIffOwn | MessageApp/ChatVC/ChatVC/ChatViewController.swift:192-201 | A message offers delete iff it is not incoming. With nobody signed in, every message is incoming. |
| Thread.ChatScreen.CommitDelete | MessageApp/ChatVC/ChatVC/ChatViewController.swift:155-190 | The delete writes happen iff the row's sender is the current user. Otherwise the store is unchanged. |
| Thread.ChatScreen.OnMessagesSnapshot | MessageApp/ChatVC/ChatVC/ChatViewController.swift:203-228 | An error, or having no chat, keeps the list. Otherwise it becomes the decodable documents in snapshot order, which is empty when the snapshot is missing. |
| AddChat.ExcludedIdsMembership | MessageApp/ChatVC/AddVC/AddNewChatViewController.swift:108-116 | An id is excluded iff it is not the current user and some chat document's participants list holds it. Documents without a list contribute nothing. |
| AddChat.ExistingChatUserIds | MessageApp/ChatVC/AddVC/AddNewChatViewController.swift:108-116 | The loop's result is the concatenation, over the chats in order, of each chat's participants other than the current user. |
| AddChat.MissingFieldsDefault | MessageApp/ChatVC/AddVC/AddNewChatViewController.swift:77-83 | Missing user fields give "No Name", "No Email" and "No Description", and no picture. |
| AddChat.UsersOf | MessageApp/ChatVC/AddVC/AddNewChatViewController.swift:75-84 | There is one user per document, in order. None is dropped. |
| AddChat.SelectableSpec | MessageApp/ChatVC/AddVC/AddNewChatViewController.swift:86-88 | `excUsers` is the order-preserving sublist of users whose id is neither excluded nor the current user. |
| AddChat.AddChatScreen.FetchAllUsers | MessageApp/ChatVC/AddVC/AddNewChatViewController.swift:65-95 | An error or a missing snapshot keeps both lists. Otherwise `excUsers` is the selectable users and `filteredUsers` equals it. |
| AddChat.AddChatScreen.FetchExistingChats | MessageApp/ChatVC/AddVC/AddNewChatViewController.swift:97-119 | With a user and successful queries, the excluded ids come from the chat result, where a missing result excludes nobody. A failed chat query stops the chain. |
| AddChat.SearchUsersSpec | MessageApp/ChatVC/AddVC/AddNewChatViewController.swift:121-128 | The empty query restores `excUsers` exactly, by its own branch. Any other query gives the order-preserving sublist with a case-insensitive name match. |
| AddChat.AddChatScreen.SearchTextDidChange | MessageApp/ChatVC/AddVC/AddNewChatViewController.swift:121-130 | `filteredUsers` becomes the search result over `excUsers`. |
| UserPreview.NewChatDecodes | MessageApp/ChatVC/AddVC/UserPreviewViewController.swift:52-56 | The record decodes to a chat with participants exactly [current, selected] and an empty summary. Its other participant is the selected user iff the ids differ. |
| UserPreview.PlaceholderNeverDecoded | MessageApp/ChatVC/AddVC/UserPreviewViewController.swift:64 | The empty placeholder document never appears in a thread, wherever the snapshot places it. |
| UserPreview.AddNewChatPressed | MessageApp/ChatVC/AddVC/UserPreviewViewController.swift:44-72 | With no user or no selection, nothing is written. The chat replaces any document with its id. The placeholder is added only after that write succeeds, and the dismissal comes only when both succeed. |
| Feed.ToggleFlipsMembership | MessageApp/Posts/PostsViewController.swift:152-159 | A toggle flips the user's membership. With the user taken out, the list is unchanged, so the others keep their order. The length grows by one or loses every occurrence. |
| Feed.ToggleTwice | MessageApp/Posts/PostsViewController.swift:152-159 | Toggling twice from a list without the user gives back the list. |
| Feed.IndicatorFollowsToggle | MessageApp/Posts/PostsViewController.swift:116-128 | After a stored toggle, the liked indicator flips and the like count moves the same way. |
| Feed.FeedScreen.LikeButtonPressed | MessageApp/Posts/PostsViewController.swift:142-169 | Nothing happens without a user. The toggled likes are merged into `posts/(id ?? "")`. The local post changes only when that write succeeds. |
| Feed.Greeting | MessageApp/Posts/PostsViewController.swift:206-219 | Hours [0,12) give "Good Morning", [12,17) "Good Afternoon", and anything else "Good Evening". |
| Feed.FeedScreen.OnPostsSnapshot | MessageApp/Posts/PostsViewController.swift:52-69 | An error or a missing snapshot keeps the feed. Otherwise it becomes the decodable posts in snapshot order. |
| Feed.FeedNewestFirst | MessageApp/Posts/PostsViewController.swift:53-66 | A newest-first snapshot gives a newest-first feed. |
| PostPreview.CommentPayloadRoundTrip | MessageApp/Posts/PostPreviewViewController.swift:103-109 | The comment payload reads back with the document's id, userID or "", and author name and picture defaulting to "Unknown" and "defaultPFP". |
| PostPreview.PostPreviewScreen.CommentPressed | MessageApp/Posts/PostPreviewViewController.swift:98-119 | Empty text or no post id means no write. On success the comment is added, the comments are refetched and the field is cleared. On failure the text stays. |
| PostPreview.PostPreviewScreen.CommitDeleteComment | MessageApp/Posts/PostPreviewViewController.swift:143-179 | Only the current user's own comment is deleted, and only that comment document. The post is never touched. |
| PostPreview.PostPreviewScreen.ProfileTarget | MessageApp/Posts/PostPreviewViewController.swift:73-84 | The profile opened is the selected comment's author, or else the post author. |
| PostPreview.PostPreviewScreen.SelectComment | MessageApp/Posts/PostPreviewViewController.swift:93-96 | Selecting a row makes that comment's author the profile target. |
| PostPreview.PostPreviewScreen.OnCommentsSnapshot | MessageApp/Posts/PostPreviewViewController.swift:257-285 | With no post id, an error or a missing snapshot, the list is kept. Otherwise it becomes the decodable comments, each with its document id. |
| PostPreview.CommentsOldestFirst | MessageApp/Posts/PostPreviewViewController.swift:263-281 | An oldest-first snapshot gives oldest-first comments, each carrying the id of a document it decodes from. |
| PostPreview.PostPreviewScreen.FetchUserData | MessageApp/Posts/PostPreviewViewController.swift:200-224 | An existing user document sets the author name (default "Unknown") and picture (default ""). Otherwise nothing changes. |
| NewPost.PostPayloadRoundTrip | MessageApp/Posts/NewPost/NewPostsViewController.swift:158-166 | The post payload reads back with author fields "", "Unknown" and "" as defaults, and empty likes. |
| NewPost.NewPostScreen.FetchUserData | MessageApp/Posts/NewPost/NewPostsViewController.swift:77-102 | The completion runs iff there is a user. An existing document sets the author fields with the "Unknown"/"" defaults. |
| NewPost.NewPostScreen.SavePost | MessageApp/Posts/NewPost/NewPostsViewController.swift:155-178 | The payload is added. Only success shows the confirmation and clears the form. |
| NewPost.NewPostScreen.ClearForm | MessageApp/Posts/NewPost/NewPostsViewController.swift:180-183 | The image and the caption are cleared. |
| NewPost.NewPostScreen.PostPressed | MessageApp/Posts/NewPost/NewPostsViewController.swift:53-71 | No image or no caption gives an error and nothing else. With no user, the chain stops. No URL gives an error and no save. Otherwise the post is saved with the caption read at the start, and the screen is dismissed. An existing user document makes the post's author the current user, with its name (or "Unknown") and picture (or ""). Otherwise the author fields stay as they were. The image and caption are cleared only by a successful save. |
| Signup.SignupValidation | MessageApp/AuthVC/SignupViewController.swift:54-94 | The checks run in a fixed order and the first failure picks the message: email, name, password of at least 6 characters, confirmation. The account may be created iff all pass and the two passwords are equal. |
| Signup.PasswordLengthBoundary | MessageApp/AuthVC/SignupViewController.swift:65 | A 6-character password passes and a 5-character one fails. |
| Signup.AuthErrorMessage | MessageApp/AuthVC/SignupViewController.swift:96-110 | `emailAlreadyInUse` shows the system text. Every other code shows "Something went wrong. Try again.". |
| Signup.BuildUserData | MessageApp/AuthVC/SignupViewController.swift:195-204 | The user document has exactly email, name and description, plus `profileImageUrl` iff a URL was uploaded. |
| Signup.SignupPressed | MessageApp/AuthVC/SignupViewController.swift:54-94 | The document is written only after validation and account creation. It replaces what was stored under the uid. The upload's alerts come first, and the screen navigates home iff the write succeeds. |
| Signup.SignupScreen.BackButtonPressed | MessageApp/AuthVC/SignupViewController.swift:245-251 | Discard confirmation is asked for iff any of the four fields holds text. |
| Signup.SignupScreen.DiscardChangesChosen | MessageApp/AuthVC/SignupViewController.swift:224-227 | Choosing to discard sets `isGoingBack`. |
| Uploads.UploadAlerts | MessageApp/AuthVC/SignupViewController.swift:134-167 | A failed put and a failed URL fetch each show one alert with the error's text. No other outcome shows an alert. |
| Uploads.UploadedUrl | MessageApp/HomeVC/Profile/ProfileEditViewController.swift:120-150 | A URL is handed on only by a completed upload. |
| Uploads.UrlExcludesAlert | MessageApp/AuthVC/SignupViewController.swift:134-167 | An upload that hands on a URL shows no alert. |
| Login.LoginValidation | MessageApp/AuthVC/LoginViewController.swift:21-30 | An empty email gives "Please enter a valid email!" and is checked first. An empty password gives "Please enter a valid password!". Both non-empty passes. |
| Login.LoginScreen.LoginPressed | MessageApp/AuthVC/LoginViewController.swift:21-45 | Sign-in is attempted iff both fields are non-empty. After an attempt both fields are cleared, whatever the sign-in outcome. Without an attempt they are kept. Failure gives "Invalid email or Password", and success navigates and shows loginSuccess. |
| ProfileEdit.UpdatePressed | MessageApp/HomeVC/Profile/ProfileEditViewController.swift:40-62 | With no user, nothing is written. The payload always has name and description (default ""), plus `profileImageUrl` only if there is an image and a URL came back. It is merged either way, and the alert is updateSuccess iff the merge succeeds. |
| ProfileEdit.MergeKeepsUnnamedFields | MessageApp/HomeVC/Profile/ProfileEditViewController.swift:152-154 | The merge keeps stored fields outside the payload, such as the email. Signup's replace drops them. |
| Text.Lowercased | MessageApp/HomeVC/MainViewController.swift:221 | Lowercasing keeps the length and lowers each character. |
| Text.EmptyQueryNeverMatches | MessageApp/HomeVC/MainViewController.swift:221 | The empty query matches no name, as Foundation's `contains` (`range(of:) != nil`) finds the empty string nowhere. |
| Text.VerbatimMatches | MessageApp/ChatVC/AddVC/AddNewChatViewController.swift:126 | A name that contains the query verbatim matches it ignoring case. |
| Feed.ToggledLikes | MessageApp/Posts/PostsViewController.swift:152-159 | Defines the toggle: the user's entries are removed if present, otherwise the user is appended. `ToggleFlipsMembership` and `ToggleTwice` state its properties. |
| ChatList.DisplayName | MessageApp/HomeVC/MainViewController.swift:193 | Defines the table lookup with the ("Unknown", "") fallback, shared by the row and the segue. |
| ChatList.Row | MessageApp/HomeVC/MainViewController.swift:180-215 | Defines what a chat cell shows. `RowShowsFirstOtherParticipant` states which participant it names and when the placeholder shows. |
| ChatList.SearchName | MessageApp/HomeVC/MainViewController.swift:220 | Defines the name a chat is searched by: the table name of its first other participant, or "" when the table lacks it. |
| ChatList.SearchChats | MessageApp/HomeVC/MainViewController.swift:219-222 | Defines the chat filter. `SearchChatsSpec` states its result. |
| AddChat.ExcludedIds | MessageApp/ChatVC/AddVC/AddNewChatViewController.swift:108-116 | Defines the excluded ids as each chat's listed participants other than the user. `ExcludedIdsMembership` characterises them and `ExistingChatUserIds` is proved equal to them. |
| AddChat.UserOf | MessageApp/ChatVC/AddVC/AddNewChatViewController.swift:76-83 | Defines one user built from a document with its defaults. `MissingFieldsDefault` states the defaults. |
| AddChat.Selectable | MessageApp/ChatVC/AddVC/AddNewChatViewController.swift:86-88 | Defines the `excUsers` filter. `SelectableSpec` states its result. |
| AddChat.SearchUsers | MessageApp/ChatVC/AddVC/AddNewChatViewController.swift:121-128 | Defines the user search with its empty-query branch. `SearchUsersSpec` states its result. |
| Thread.IsIncoming | MessageApp/ChatVC/ChatVC/ChatViewController.swift:149 | Defines a message as incoming when its sender is not the current user. A missing user counts as different from every sender. |
| Thread.EditingStyleFor | MessageApp/ChatVC/ChatVC/ChatViewController.swift:192-201 | Defines delete as offered only on the current user's own messages. `DeletableIffOwn` relates it to `IsIncoming`. |
| PostPreview.MayDeleteComment | MessageApp/Posts/PostPreviewViewController.swift:171-179 | Defines delete as offered only on the current user's own comments. `CommitDeleteComment` is gated by it. |
| Thread.MessagePayload | MessageApp/ChatVC/ChatVC/ChatViewController.swift:111-118 | Defines the message payload. `PayloadRoundTrip` proves it decodes to the sent message. |
| PostPreview.CommentPayload | MessageApp/Posts/PostPreviewViewController.swift:103-109 | Defines the comment payload. `CommentPayloadRoundTrip` proves what it reads back as. |
| NewPost.PostPayload | MessageApp/Posts/NewPost/NewPostsViewController.swift:158-166 | Defines the post payload. `PostPayloadRoundTrip` proves what it reads back as. |
| UserPreview.NewChatFields | MessageApp/ChatVC/AddVC/UserPreviewViewController.swift:52-56 | Defines the new chat record. `NewChatDecodes` proves what it decodes to. |
| Text.Contains | MessageApp/HomeVC/MainViewController.swift:221 | Defines Foundation's `contains`: a non-empty needle occurs as a contiguous block. `EmptyQueryNeverMatches` and `VerbatimMatches` state its consequences. |
| Text.MatchesIgnoringCase | MessageApp/HomeVC/MainViewController.swift:221 | Defines `name.lowercased().contains(query.lowercased())`. `VerbatimMatches` and `EmptyQueryNeverMatches` state its properties. |
| ChatList.ChatListScreen.constructor | MessageApp/HomeVC/MainViewController.swift:21-26 | The chat list, the search results and the participant table start empty, and the screen is not searching. |
| Thread.ChatScreen.constructor | MessageApp/ChatVC/ChatVC/ChatViewController.swift:23-29 | The thread starts empty with an empty input, for the chat and participant handed over. |
| AddChat.AddChatScreen.constructor | MessageApp/ChatVC/AddVC/AddNewChatViewController.swift:17-20 | Both user lists start empty, for the given current user. |
| Feed.FeedScreen.constructor | MessageApp/Posts/PostsViewController.swift:20-21 | The feed starts empty. |
| PostPreview.PostPreviewScreen.constructor | MessageApp/Posts/PostPreviewViewController.swift:32-38 | No comments, no selection and no author details at first, with an empty comment field. |
| NewPost.NewPostScreen.constructor | MessageApp/Posts/NewPost/NewPostsViewController.swift:20-22 | No image, no caption and no author details at first. |
| Signup.SignupScreen.constructor | MessageApp/AuthVC/SignupViewController.swift:20 | The screen starts not going back. |
| Login.LoginScreen.constructor | MessageApp/AuthVC/LoginViewController.swift:13-14 | Both fields start empty. |

## Left out

- Firebase Auth, Firestore and Storage, and image downloads: network I/O. The store is a map value. The signed-in user, every call's outcome and every generated id are parameters.
- Queries done by the store (`whereField(arrayContains:)`, `order(by:)`): a query result is the list of documents given. The ordering lemmas assume the order the query delivers.
- ChatList.ChatListScreen.FetchChats: the `DispatchGroup` fan-out is modelled only by its result after the join, and each id has one lookup outcome (failed or not). Completions for the same id that disagree are not modelled.
- Text.MatchesIgnoringCase: `lowercased()` is modelled on ASCII letters only. Unicode case mapping and normalisation are not modelled. `contains` is taken to be Foundation's, which finds the empty string nowhere; the standard library's own overload would find it everywhere.
- ChatList.SearchChatsSpec: the empty query gives no chats only under Foundation's `contains`. The screen shows `chats` for it either way, because it is not searching then.
- Generated document ids (`addDocument`) are parameters that are not required to be new. A send, a comment or a post written under an id already taken replaces that document, which the store's own id generation never does.
- Signup.SignupValidation: `password.count` counts grapheme clusters in Swift. The model counts characters of the string.
- Thread.ChatScreen.SendPressed: a nil `textInput.text` is modelled as empty text. The two fields of a text view are plain strings throughout.
- `Timestamp()`, `Date()` and `DateFormatter` "h:mm a": timestamps are opaque integers and the formatted times are not modelled.
- Feed.FeedScreen.LikeButtonPressed: `posts` replaced by a snapshot between the write and its completion is not modelled. The completion sees the list the press saw.
- `resizeImage`, keyboard offsets, corner radii, dark-mode styling and table-cell classes: floating-point geometry and presentation.
- `setupParticipantDetails`, `loadImage`, the profile segue of the thread screen, `loadUserData` of the profile editor, and `fetchUserData` of the feed screen (its result is discarded): display only.
- SettingsViewController, SceneDelegate and the `fetchUserPreference` copies: Core Data preferences and window routing.
- Navigation, alerts' presentation and dismissals are modelled only as returned values (`alerts`, `navigated`, `dismissed`, `BackAction`).
- Signup.SignupScreen.BackButtonPressed: `viewDidLoad` replaces this button by a plain back button that pops without asking. The model states the button's own rule.
