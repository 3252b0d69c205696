# dsm — verified model of the service rules and the client session policy

This project models the parts of the dsm web site (a Spring backend with a React
frontend for a historical-reenactment society) that follow rules rather than just
forwarding data:

- **S3Url**: `S3UrlService.getPublicUrl`. It builds the public URL of a stored object
  from the friendly URL base or the S3 endpoint, the bucket and the object key.
- **Reenactment**: `ReenactmentService`. It groups blocks under the ordered categories,
  with a trailing "other" group. It also normalises category codes, rejects duplicate
  codes, applies partial updates, checks existence before a delete, and deletes a block's
  photos before the block.
- **Events**: `EventService`. It validates title and text and merges the non-null fields
  of a JSON request. For the multipart form it applies the link, date and image rules,
  including a `LocalDate.parse` of the ISO form `yyyy-MM-dd`.
- **Galleries**: `GalleryService`. It creates a gallery without an image, applies partial
  updates that always set the published flag, deletes the photos before the gallery, and
  maps a gallery to its response.
- **Contacts**: the `Contact` entity's read state and `ContactService`. It saves a message
  and then asks for one email, marks a message read once, counts unread messages and
  deletes messages.
- **HttpClient**: the axios instance in `axios.js`. It covers the default headers, the
  request interceptor (bearer token, no `Content-Type` for FormData) and the response
  interceptor. On a 401 the interceptor clears the session, broadcasts
  `authStateChanged` and redirects to `/login`. An error without a response gets the
  network-error message.
- **AuthService**: `authService.js`. It covers the login payload, the storage writes of
  a successful login, the ordered choice of the failure message, `logout`,
  `getCurrentUser` and `isAuthenticated`.

How the model represents the system:

- Entities that the services change through setters (`Event`, `Gallery`, `Contact`,
  `ReenactmentCategory`, `Block`) are classes. Each has a `Data()` snapshot, and the
  methods that change it state the new snapshot as a function of the old one.
- Each repository is a `map` from id to snapshot, held in a field of its service class.
  A lookup materialises a fresh entity object, and a save stores its snapshot.
- UUIDs are natural numbers. The all-zero UUID, which the grouping uses as its sentinel,
  is `NilUuid = 0`, and generated ids come from a positive counter.
- `LocalDateTime.now()` is a `now` parameter.
- The photo store is reduced to what it does for these services. Its deletions are
  recorded in an ordered log, and an upload is a parameter saying whether it stored the
  file under a key or failed with an `IOException`.
- The network is a `Reply` parameter, and local storage and the window are a `Browser`
  object.

Where the code does something its names and comments do not suggest, the model follows the code:

- `authService.login` and `logout` do not dispatch `authStateChanged` themselves. Only
  the 401 handler of the response interceptor does.
- A 401 on the login request itself clears the stored session.
- The failure message of a login can be empty, when the body's `errors` array is empty.
- The duplicate-code check of `createCategory` compares the code as sent, while the code
  it stores is normalised. `RawCodeCheckAdmitsCaseVariant` shows a code that differs
  from a stored one only in case getting past the check.

## Model

| member | source | states |
|---|---|---|
| Common.TrimProperties | backend/src/main/java/de/dsm/backend/services/S3UrlService.java:24-25 | Java's trim never lengthens a string. It gives the empty string exactly when every character is at most U+0020, and otherwise the result starts and ends with a kept character. |
| Common.Trim | backend/src/main/java/de/dsm/backend/services/S3UrlService.java:24-25 | Java's String.trim, which drops leading and trailing characters at most U+0020. Its properties are stated by TrimProperties, TrimIdempotent and the two span lemmas. |
| Common.TrimIdempotent | backend/src/main/java/de/dsm/backend/services/S3UrlService.java:24-25 | Trimming twice is trimming once. |
| Common.LeadingTrimmableSpan | backend/src/main/java/de/dsm/backend/services/S3UrlService.java:24-25 | The leading part trim removes is exactly the run of characters at most U+0020 at the start. |
| Common.TrailingTrimmableSpan | backend/src/main/java/de/dsm/backend/services/S3UrlService.java:24-25 | The trailing part trim removes is exactly the run of characters at most U+0020 at the end. |
| Common.ToLowerAsciiChars | backend/src/main/java/de/dsm/backend/services/ReenactmentService.java:82 | toLowerCase maps every character on its own: A–Z to a–z, everything else unchanged. |
| S3Url.UrlPrefix | backend/src/main/java/de/dsm/backend/services/S3UrlService.java:24-44 | There is a prefix exactly when the friendly base or the endpoint is not empty after trim (every character at most U+0020), and it always ends with "/" + bucket + "/". |
| S3Url.PublicUrl | backend/src/main/java/de/dsm/backend/services/S3UrlService.java:18-47 | The result is null exactly for a null or empty key, or when neither base nor endpoint is configured. Otherwise it ends with "/" + bucket + "/" + the key without one leading "/". |
| S3Url.FriendlyBaseUrl | backend/src/main/java/de/dsm/backend/services/S3UrlService.java:24-33 | With a friendly base that is not empty after trim (every character at most U+0020), the URL is the trimmed base, plus "/" if it lacked one, then bucket, "/" and the cleaned key. |
| S3Url.FriendlyBaseTakesPrecedence | backend/src/main/java/de/dsm/backend/services/S3UrlService.java:24-36 | With a friendly base that is not empty after trim (every character at most U+0020), the endpoint setting has no influence on the result. |
| S3Url.EndpointFallbackUrl | backend/src/main/java/de/dsm/backend/services/S3UrlService.java:36-44 | When the friendly base is null or empty after trim, the URL is "https://", then the trimmed endpoint without its scheme, then "/", bucket, "/" and the cleaned key. |
| S3Url.StripSchemeRemovesOnePrefix | backend/src/main/java/de/dsm/backend/services/S3UrlService.java:39-41 | At most one "http://" or "https://" prefix is removed, and nothing else changes. |
| S3Url.LeadingSlashIgnored | backend/src/main/java/de/dsm/backend/services/S3UrlService.java:31 | A key and the same key behind one "/" give the same URL. |
| S3Url.SecondLeadingSlashKept | backend/src/main/java/de/dsm/backend/services/S3UrlService.java:42-43 | Only one leading "/" is dropped: a key behind two slashes keeps one. |
| S3Url.DistinctKeysDistinctUrls | backend/src/main/java/de/dsm/backend/services/S3UrlService.java:31-32 | Two keys get the same non-null URL only if they agree once a leading "/" is dropped. |
| S3Url.NothingConfiguredExample | backend/src/test/java/de/dsm/backend/services/S3UrlServiceTest.java:92-98 | With an empty base and an empty endpoint the result is null. |
| Reenactment.LeadingSpacesSpan | backend/src/main/java/de/dsm/backend/services/ReenactmentService.java:82 | The run of `\s` characters at the start of a string is measured exactly. |
| Reenactment.CollapseHasNoSpaces | backend/src/main/java/de/dsm/backend/services/ReenactmentService.java:82 | After `replaceAll("\\s+", "_")` no `\s` character is left. |
| Reenactment.CollapseKeepsCharacters | backend/src/main/java/de/dsm/backend/services/ReenactmentService.java:82 | Every character of the result is "_" or a character of the input. |
| Reenactment.CollapseKeepsLast | backend/src/main/java/de/dsm/backend/services/ReenactmentService.java:82 | A last character that is not `\s` stays the last character. |
| Reenactment.CollapseWithoutSpaces | backend/src/main/java/de/dsm/backend/services/ReenactmentService.java:82 | A string without `\s` characters is left as it is. |
| Reenactment.LowerTrimmedEnds | backend/src/main/java/de/dsm/backend/services/ReenactmentService.java:82 | The trimmed, lower-cased code has no upper-case letter. It is empty exactly when the code is empty after trim (every character at most U+0020), and otherwise it starts and ends with a kept character. |
| Reenactment.NormalizeCodeProperties | backend/src/main/java/de/dsm/backend/services/ReenactmentService.java:82 | A stored code has no `\s` and no upper-case ASCII letter. It is empty exactly when the request code is empty after trim (every character at most U+0020), and it neither starts nor ends with what trim removes. |
| Reenactment.NormalizeCodeIdempotent | backend/src/main/java/de/dsm/backend/services/ReenactmentService.java:82 | Normalising a stored code again changes nothing. |
| Reenactment.NormalizeCode | backend/src/main/java/de/dsm/backend/services/ReenactmentService.java:82 | The code as stored: trimmed, lower-cased, with each run of `\s` replaced by "_". Its properties are stated by NormalizeCodeProperties and NormalizeCodeIdempotent. |
| Reenactment.RawCodeCheckAdmitsCaseVariant | backend/src/main/java/de/dsm/backend/services/ReenactmentService.java:78-82 | The duplicate check uses the raw code: with "a" stored, the request code "A" passes the check and normalises to the stored "a". |
| Reenactment.BlocksWithKey | backend/src/main/java/de/dsm/backend/services/ReenactmentService.java:37-38 | A group holds exactly the blocks whose key (category id, or the zero UUID for none) is the group's key. |
| Reenactment.BlocksWithKeyAppend | backend/src/main/java/de/dsm/backend/services/ReenactmentService.java:37-38 | Grouping keeps the listing order: filtering distributes over concatenation. |
| Reenactment.FindCategory | backend/src/main/java/de/dsm/backend/services/ReenactmentService.java:167-169 | The lookup finds a listed category with that id, or reports that none is listed. |
| Reenactment.ToListItem | backend/src/main/java/de/dsm/backend/services/ReenactmentService.java:166-178 | Id, title, category id and sort order are copied, and the image becomes its public URL. The category code is present exactly when the block has a category id and a listed category has that id, and it is then the code of such a category. |
| Reenactment.GetBlocksGroupedByCategory | backend/src/main/java/de/dsm/backend/services/ReenactmentService.java:33-65 | There is one group per category, in the given order, with the category's id, code, names and sort order, and each group's blocks are exactly that category's blocks. A trailing "other" group (id null, sort order 999) appears exactly when some block has no category or is filed under the zero UUID. |
| Reenactment.BlockInItsCategoryGroup | backend/src/main/java/de/dsm/backend/services/ReenactmentService.java:37-43 | A block filed under a listed category is in that category's group. |
| Reenactment.UncategorisedBlockInOtherGroup | backend/src/main/java/de/dsm/backend/services/ReenactmentService.java:53-62 | A block without a category makes the "other" group appear and is in it. |
| Reenactment.OrphanBlockInNoGroup | backend/src/main/java/de/dsm/backend/services/ReenactmentService.java:43-53 | A block whose category is not listed appears in no group. |
| Reenactment.BlockInAtMostOneGroup | backend/src/main/java/de/dsm/backend/services/ReenactmentService.java:37-53 | With distinct, non-zero category ids, no block is in two groups. |
| Reenactment.NilCategoryCountsAsOther | backend/src/main/java/de/dsm/backend/services/ReenactmentService.java:38-53 | A block filed under the zero UUID lands in the "other" group. |
| Reenactment.NewCategory | backend/src/main/java/de/dsm/backend/services/ReenactmentService.java:81-86 | A new category stores the normalised code, and a missing sort order defaults to 0. |
| Reenactment.MergeCategoryProperties | backend/src/main/java/de/dsm/backend/services/ReenactmentService.java:98-101 | An update never changes the id or the code, is idempotent, and with no field given changes nothing. |
| Reenactment.MergeCategory | backend/src/main/java/de/dsm/backend/services/ReenactmentService.java:98-101 | Each non-null request field of updateCategory overwrites the stored one. Its properties are stated by MergeCategoryProperties. |
| Reenactment.NewBlock | backend/src/main/java/de/dsm/backend/services/ReenactmentService.java:136-141 | A new block has no image, and a missing sort order defaults to 0. |
| Reenactment.MergeBlockProperties | backend/src/main/java/de/dsm/backend/services/ReenactmentService.java:149-153 | A block update keeps the id, cannot clear the category or the image, and is idempotent. |
| Reenactment.MergeBlock | backend/src/main/java/de/dsm/backend/services/ReenactmentService.java:149-153 | Each non-null request field of updateBlock overwrites the stored one. Its properties are stated by MergeBlockProperties. |
| Reenactment.Category.constructor | backend/src/main/java/de/dsm/backend/services/ReenactmentService.java:81 | A new category entity has no id, code, names or sort order. |
| Reenactment.Category.Load | backend/src/main/java/de/dsm/backend/services/ReenactmentService.java:96 | The entity a lookup returns holds the stored row. |
| Reenactment.Category.Fill | backend/src/main/java/de/dsm/backend/services/ReenactmentService.java:82-86 | The setter calls of createCategory leave the entity equal to `NewCategory`. |
| Reenactment.Category.Merge | backend/src/main/java/de/dsm/backend/services/ReenactmentService.java:98-101 | The setter calls of updateCategory leave the entity equal to `MergeCategory` of its old state. |
| Reenactment.Block.constructor | backend/src/main/java/de/dsm/backend/services/ReenactmentService.java:137 | A new block entity has every field unset. |
| Reenactment.Block.Load | backend/src/main/java/de/dsm/backend/services/ReenactmentService.java:147 | The entity a lookup returns holds the stored row. |
| Reenactment.Block.Merge | backend/src/main/java/de/dsm/backend/services/ReenactmentService.java:149-153 | The setter calls of updateBlock leave the entity equal to `MergeBlock` of its old state. |
| Reenactment.ReenactmentService.CreateCategory | backend/src/main/java/de/dsm/backend/services/ReenactmentService.java:77-93 | A code already stored as given fails with "Category with code … already exists" and saves nothing. Otherwise exactly one new category, `NewCategory`, is stored under a fresh id. |
| Reenactment.ReenactmentService.UpdateCategory | backend/src/main/java/de/dsm/backend/services/ReenactmentService.java:95-108 | An unknown id fails with "Category not found" and changes nothing. Otherwise only that category changes, to its merge with the request. |
| Reenactment.ReenactmentService.DeleteCategory | backend/src/main/java/de/dsm/backend/services/ReenactmentService.java:110-115 | An unknown id fails and changes nothing. Otherwise exactly that category is removed. |
| Reenactment.ReenactmentService.CreateBlock | backend/src/main/java/de/dsm/backend/services/ReenactmentService.java:136-144 | Exactly one new block, `NewBlock`, is stored under a fresh id, and the categories are untouched. |
| Reenactment.ReenactmentService.UpdateBlock | backend/src/main/java/de/dsm/backend/services/ReenactmentService.java:146-156 | An unknown id fails with "Block not found" and changes nothing. Otherwise only that block changes, to its merge with the request. |
| Reenactment.ReenactmentService.DeleteBlock | backend/src/main/java/de/dsm/backend/services/ReenactmentService.java:158-164 | An unknown id fails and changes nothing. Otherwise the block's photos are deleted, then the block. |
| Events.ParseLocalDate | backend/src/main/java/de/dsm/backend/services/EventService.java:105 | A parsed date has the form yyyy-MM-dd and names a day that exists. |
| Events.ParseFormattedDate | backend/src/main/java/de/dsm/backend/services/EventService.java:105 | Every valid date, formatted as yyyy-MM-dd, parses back to itself. |
| Events.FormattedParsedDate | backend/src/main/java/de/dsm/backend/services/EventService.java:105 | Formatting a parsed date gives back the parsed text, so only canonical yyyy-MM-dd text is accepted. |
| Events.PadDigitsOfDecimalValue | backend/src/main/java/de/dsm/backend/services/EventService.java:105 | A digit string is the zero-padded form of its own value. |
| Events.NoLeapDayInCommonYear | backend/src/main/java/de/dsm/backend/services/EventService.java:105 | 29 February of a common year is rejected. |
| Events.DecimalValueOfPadDigits | backend/src/main/java/de/dsm/backend/services/EventService.java:105 | A zero-padded number reads back as the number. |
| Events.ToResponse | backend/src/main/java/de/dsm/backend/services/EventService.java:122-132 | The response copies id, title, text, link, date, createdAt and updatedAt, and gives the image as its public URL. |
| Events.ValidateEventFields | backend/src/main/java/de/dsm/backend/services/EventService.java:75-82 | Validation passes exactly when title and text are both non-null and non-blank. A bad title is reported before a bad text. |
| Events.MergeRequestProperties | backend/src/main/java/de/dsm/backend/services/EventService.java:114-120 | A merge keeps the id and timestamps, cannot clear a field, and is idempotent. |
| Events.MergeRequest | backend/src/main/java/de/dsm/backend/services/EventService.java:114-120 | Every non-null request field overwrites, and every other field stays. Its properties are stated by MergeRequestProperties. |
| Events.CreatedEventHasTitleAndText | backend/src/main/java/de/dsm/backend/services/EventService.java:26-36 | An event that passed createEvent's checks is stored with a non-blank title and text. |
| Events.MultipartDate | backend/src/main/java/de/dsm/backend/services/EventService.java:103-111 | A null or blank date clears the date, a parseable one is stored, and anything else keeps the previous date. |
| Events.MultipartLink | backend/src/main/java/de/dsm/backend/services/EventService.java:97-101 | A null or blank link becomes null, and any other link is kept as given. |
| Events.NewImageKey | backend/src/main/java/de/dsm/backend/services/EventService.java:88-95 | The image is replaced exactly when a non-empty file was uploaded and stored. |
| Events.MultipartFieldsProperties | backend/src/main/java/de/dsm/backend/services/EventService.java:84-112 | Title and text always come from the form. The image changes only to a freshly uploaded key, and the id and timestamps stay. |
| Events.MultipartFields | backend/src/main/java/de/dsm/backend/services/EventService.java:84-112 | The fields setEventFieldsFromMultipart writes: title and text from the form, the link by MultipartLink, the date by MultipartDate, and the image replaced only by a newly uploaded key. Its properties are stated by MultipartFieldsProperties. |
| Events.Event.constructor | backend/src/main/java/de/dsm/backend/services/EventService.java:34 | A new event has every field null. |
| Events.Event.Load | backend/src/main/java/de/dsm/backend/services/EventService.java:56 | The reference a lookup returns holds the stored row. |
| Events.UpdateRecord | backend/src/main/java/de/dsm/backend/services/EventService.java:114-120 | The entity becomes `MergeRequest` of its old state: every non-null request field overwrites, and nothing else changes. |
| Events.SetLinkAndDate | backend/src/main/java/de/dsm/backend/services/EventService.java:97-111 | Link and date follow `MultipartLink` and `MultipartDate`, and no other field changes. |
| Events.EventService.Save | backend/src/main/java/de/dsm/backend/services/EventService.java:36 | A new event gets a fresh id and its creation time, and a loaded one is written back unchanged. |
| Events.EventService.SetEventFieldsFromMultipart | backend/src/main/java/de/dsm/backend/services/EventService.java:84-112 | Only a non-empty file is uploaded, and an upload failure is the only error, "Failed to upload image". Otherwise the entity becomes `MultipartFields` of its old state. |
| Events.EventService.CreateEvent | backend/src/main/java/de/dsm/backend/services/EventService.java:26-37 | A null or blank title or text fails and saves nothing. Otherwise exactly one event, the request merged into a blank event, is stored with a fresh id and creation time. |
| Events.EventService.CreateEventWithFile | backend/src/main/java/de/dsm/backend/services/EventService.java:39-44 | The form is validated before anything is uploaded or saved, and a failed upload saves nothing. Otherwise one event built by the multipart rules is stored. |
| Events.EventService.GetEvent | backend/src/main/java/de/dsm/backend/services/EventService.java:46-49 | A stored event is returned as its response, and an unknown id fails. |
| Events.EventService.DeleteEvent | backend/src/main/java/de/dsm/backend/services/EventService.java:71-73 | Exactly that id is removed, and an unknown id is no error. |
| Events.EventService.UpdateEvent | backend/src/main/java/de/dsm/backend/services/EventService.java:55-61 | An unknown id fails and changes nothing. Otherwise the event becomes its merge with the request, with updatedAt set. |
| Events.EventService.UpdateEventWithFile | backend/src/main/java/de/dsm/backend/services/EventService.java:63-69 | Validation comes before the lookup, and the lookup before any upload. On success the event follows the multipart rules and gets updatedAt. |
| Galleries.ToResponse | backend/src/main/java/de/dsm/backend/services/GalleryService.java:71-80 | The response image is the public URL of the stored key, and null when there is no key. The other fields are copied. |
| Galleries.ApplyUpdateProperties | backend/src/main/java/de/dsm/backend/services/GalleryService.java:31-42 | Published always comes from the request. Title, description and image change only when given, so the image cannot be cleared. Identity and timestamps stay, and the update is idempotent. |
| Galleries.ApplyUpdate | backend/src/main/java/de/dsm/backend/services/GalleryService.java:31-42 | updateGallery's effect on a stored gallery. Its properties are stated by ApplyUpdateProperties. |
| Galleries.Gallery.constructor | backend/src/main/java/de/dsm/backend/services/GalleryService.java:23 | A new gallery holds the given fields and has no id yet. |
| Galleries.Gallery.Load | backend/src/main/java/de/dsm/backend/services/GalleryService.java:29 | The reference a lookup returns holds the stored row. |
| Galleries.Gallery.Update | backend/src/main/java/de/dsm/backend/services/GalleryService.java:31-42 | The setter calls leave the entity equal to `ApplyUpdate` of its old state. |
| Galleries.GalleryService.SaveNew | backend/src/main/java/de/dsm/backend/services/GalleryService.java:24 | Saving gives the very object a fresh id and its creation time, and stores it. |
| Galleries.GalleryService.CreateGallery | backend/src/main/java/de/dsm/backend/services/GalleryService.java:22-26 | Exactly one gallery is stored, with the request's title, description and published flag and no image. Its response has a null image. |
| Galleries.GalleryService.UpdateGallery | backend/src/main/java/de/dsm/backend/services/GalleryService.java:28-46 | An unknown id fails and changes nothing. Otherwise only that gallery changes, to `ApplyUpdate`. |
| Galleries.GalleryService.DeleteGallery | backend/src/main/java/de/dsm/backend/services/GalleryService.java:64-69 | The gallery's photos are deleted, then the gallery row, and the deletion log keeps that shape. |
| Galleries.PhotosDeletedBeforeGallery | backend/src/main/java/de/dsm/backend/services/GalleryService.java:65-68 | Over any run of deletions, every gallery-row deletion comes right after the deletion of that gallery's photos. |
| Galleries.DeletionLogExtends | backend/src/main/java/de/dsm/backend/services/GalleryService.java:65-68 | Each deleteGallery call keeps the deletion log in photos-then-row pairs. |
| Contacts.MarkedReadProperties | backend/src/main/java/de/dsm/backend/models/entity/Contact.java:49-54 | Marking read sets read, and sets readAt only on the transition. It never changes name, email, message or createdAt, and a second mark changes nothing. |
| Contacts.MarkedRead | backend/src/main/java/de/dsm/backend/models/entity/Contact.java:49-54 | markAsRead's effect on a contact. Its properties are stated by MarkedReadProperties. |
| Contacts.UnreadCount | backend/src/main/java/de/dsm/backend/services/ContactService.java:50-52 | countByReadFalse, as the number of stored contacts that are not read. UnreadCountBound, ReadLowersUnreadCount, NewContactRaisesUnreadCount and DeleteLowersUnreadCount state how it bounds and moves. |
| Contacts.UnreadCountBound | backend/src/main/java/de/dsm/backend/services/ContactService.java:50-52 | There are never more unread contacts than contacts. |
| Contacts.ReadLowersUnreadCount | backend/src/main/java/de/dsm/backend/services/ContactService.java:36-44 | Reading an unread contact lowers the unread count by exactly one. |
| Contacts.NewContactRaisesUnreadCount | backend/src/main/java/de/dsm/backend/services/ContactService.java:25-29 | Storing a new contact raises the unread count by exactly one. |
| Contacts.DeleteLowersUnreadCount | backend/src/main/java/de/dsm/backend/services/ContactService.java:46-48 | Deleting lowers the unread count by one exactly when the contact was unread. |
| Contacts.Contact.constructor | backend/src/main/java/de/dsm/backend/models/entity/Contact.java:38-42 | A new contact holds the given name, email and message, is unread, and has no readAt. |
| Contacts.Contact.Load | backend/src/main/java/de/dsm/backend/services/ContactService.java:37 | The entity a lookup returns holds the stored row. |
| Contacts.Contact.MarkAsRead | backend/src/main/java/de/dsm/backend/models/entity/Contact.java:49-54 | The entity becomes `MarkedRead` of its old state at the given time. |
| Contacts.ContactService.CreateContact | backend/src/main/java/de/dsm/backend/services/ContactService.java:25-29 | Exactly one unread contact is saved, built from the request, and then exactly one email is requested with the request's data. |
| Contacts.ContactService.GetUnreadCount | backend/src/main/java/de/dsm/backend/services/ContactService.java:50-52 | The count is the number of unread contacts and never exceeds the number of contacts. |
| Contacts.ContactService.ReadContactMessage | backend/src/main/java/de/dsm/backend/services/ContactService.java:36-44 | An existing unread contact is marked read and saved exactly once. A read contact or an unknown id saves nothing. The unread count afterwards is always returned. |
| Contacts.ContactService.DeleteContact | backend/src/main/java/de/dsm/backend/services/ContactService.java:46-48 | Exactly that id is removed, and an unknown id is no error. |
| HttpClient.WithoutSession | frontend/src/config/axios.js:44-45 | Removing the session removes `token` and `user` and keeps every other key and value. |
| HttpClient.OutgoingHeaders | frontend/src/config/axios.js:11-31 | A truthy token sets `Authorization: Bearer <token>`. A FormData body leaves without `Content-Type`. Every other header is kept. |
| HttpClient.BearerToken | frontend/src/config/axios.js:15 | A token read back from the header is what follows "Bearer ". |
| HttpClient.BearerTokenRoundTrip | frontend/src/config/axios.js:13-15 | The header carries exactly the stored token. |
| HttpClient.NoTokenNoAuthorization | frontend/src/config/axios.js:23-25 | Without a token, the request leaves without an Authorization header. |
| HttpClient.OtherBodiesStayJson | frontend/src/config/axios.js:6-8 | A body that is not FormData keeps `Content-Type: application/json`. |
| HttpClient.Browser.Item | frontend/src/config/axios.js:13 | getItem returns the stored value, or null when the key is absent. |
| HttpClient.RequestConfig.constructor | frontend/src/config/axios.js:3-9 | A request starts from the default headers. |
| HttpClient.InterceptRequest | frontend/src/config/axios.js:11-36 | The config's headers become `OutgoingHeaders` of the old headers, the stored token and the body. |
| HttpClient.InterceptResponseError | frontend/src/config/axios.js:42-55 | A 401 removes both session keys, dispatches `authStateChanged` and goes to `/login`, and any other error leaves storage alone. Only an error without a response gets the network-error message. |
| HttpClient.StorageAfterReplyProperties | frontend/src/config/axios.js:43-48 | Only a 401 touches storage, and then only the two session keys. |
| HttpClient.StorageAfterReply | frontend/src/config/axios.js:43-48 | Storage after the client has handled a reply. Its properties are stated by StorageAfterReplyProperties. |
| HttpClient.ResponseOf | frontend/src/config/axios.js:50 | An error has a response exactly when the server replied. |
| HttpClient.Send | frontend/src/config/axios.js:3-56 | The request leaves with the intercepted headers. A 2xx reply resolves unchanged. Every other reply is rejected, with axios' status message or the network-error text, and only a 401 touches storage, events and location. |
| AuthService.LoginPayload | frontend/src/services/authService.js:17-20 | The payload's email is `credentials.email`, or `credentials.username` when that is falsy, and the password is passed unchanged. |
| AuthService.ErrorItemText | frontend/src/services/authService.js:43 | A string item renders as itself. An object item renders as its message when that is truthy, and otherwise as "[object Object]". The text is empty exactly for the empty string item. |
| AuthService.JoinErrors | frontend/src/services/authService.js:43 | No items give the empty string, and one item gives exactly its own text. JoinErrorsCons and JoinErrorsSeparated state longer lists. |
| AuthService.JoinErrorsSeparated | frontend/src/services/authService.js:43 | Two or more items give at least the two characters of the ", " separator, so their join is never empty. |
| AuthService.JoinErrorsCons | frontend/src/services/authService.js:43 | With at least one item after it, the first item's text is followed by ", " and the join of the rest, which is join's left-to-right reading. |
| AuthService.BodyMessageWins | frontend/src/services/authService.js:34-47 | A string body wins, then `.message`, then `.error`, then an `errors` array joined by `JoinErrors`. Whenever the body says anything, the error's own message is ignored. |
| AuthService.LoginErrorMessage | frontend/src/services/authService.js:32-47 | The message of a failed login, chosen from the response body and the error's own message. The order is stated by BodyMessageWins (string, message, error, errors) and FalsyBodyUsesErrorMessage (then the error's message). The fallbacks are stated by LoginFailedFallback and EmptyLoginErrorMessage. |
| AuthService.FalsyBodyUsesErrorMessage | frontend/src/services/authService.js:45-46 | For a missing, null or empty-string body, a non-empty error message is the login failure message. |
| AuthService.LoginFailedFallback | frontend/src/services/authService.js:33-47 | "Login failed" is chosen for an object body with nothing to say, and for a falsy body when the error has no message. |
| AuthService.EmptyLoginErrorMessage | frontend/src/services/authService.js:35-47 | The message is empty exactly when the `errors` array is empty or holds one empty string. |
| AuthService.LoginResult | frontend/src/services/authService.js:15-53 | Login resolves with the body exactly for a 2xx reply with a usable body. A rejected login keeps the server's response attached, and has none when there was no reply. |
| AuthService.StorageAfterLoginProperties | frontend/src/services/authService.js:22-27 | Only a successful login writes storage, and then only `token` and `user`. A 401 clears both, and any other failure leaves storage as it was. |
| AuthService.StorageAfterLogin | frontend/src/services/authService.js:22-27 | Storage after a login reply. Its properties are stated by StorageAfterLoginProperties and SessionStaysConsistent. |
| AuthService.OfflineLoginMessage | frontend/src/services/authService.js:45-47 | Without a reply, the login error carries the fixed network-error text. |
| AuthService.Login | frontend/src/services/authService.js:15-53 | The login request, its result, storage, dispatched events and location are exactly those of `LoginResult` and `StorageAfterLogin` for the reply. |
| AuthService.Logout | frontend/src/services/authService.js:56-59 | Both session keys are removed, and every other key stays. |
| AuthService.CurrentUser | frontend/src/services/authService.js:62-65 | It is null exactly when no non-empty user entry is stored, and otherwise the stored JSON text. |
| AuthService.LogoutEndsSession | frontend/src/services/authService.js:56-70 | Logging out is idempotent, and afterwards nobody is authenticated and there is no current user. |
| AuthService.IsAuthenticated | frontend/src/services/authService.js:68-70 | A non-empty token is stored. LogoutEndsSession, LoginSignsIn and TokenlessLoginCountsAsSignedIn state when it holds. |
| AuthService.LoginSignsIn | frontend/src/services/authService.js:22-27 | After a successful login the user is authenticated, the current user is the returned one, and the next request carries the returned token. |
| AuthService.TokenlessLoginCountsAsSignedIn | frontend/src/services/authService.js:26 | A 2xx reply without a token stores the text "undefined", which counts as authenticated. |
| AuthService.SessionStaysConsistent | frontend/src/services/authService.js:22-27 | Login, logout and the 401 handling keep `token` and `user` stored together or not at all. |
| AuthService.UnauthorizedLoginEndsSession | frontend/src/config/axios.js:43-45 | A 401 on the login request itself ends any stored session. |

## Left out

- The React components, the frontend service wrappers that only forward calls, the
  static demo data, the controllers and the Spring configuration are not modelled.
- PhotoService is reduced to a deletion log and an upload-outcome parameter. Image
  decoding, thumbnails, S3 transfers and the stored photo rows are not modelled.
- Repository queries with ordering (`findAllByOrderBySortOrderAsc`, the date-ordered
  event page) are not modelled. `GetBlocksGroupedByCategory` takes the two listings
  already sorted.
- Read-only listings and lookups that are not part of this model: `getCategories`,
  `getBlockById`, `getEvents`, `getGallery`, `getAllPublishedGalleries`, `getAllGalleries`,
  `getContacts`, and `register`, `getProfile`, `getUserById` and `getAllUsers` in
  authService.js.
- Contacts.ContactService.CreateContact: the notification email is modelled only as one
  recorded request after the save. `createContact` calls `sendEmailAsync` on the service
  itself, so the call does not go through the Spring proxy. `@Async` and `@Retryable` then
  never apply: the mail is sent synchronously inside `createContact` and is never retried.
  A MailException, which EmailService logs and rethrows, escapes `createContact` after
  the contact has been saved. Sending mail is I/O, and that failure path is not modelled.
- Database constraints are not modelled. These are NOT NULL on the category names, the
  unique, 50-character category code, and column lengths. A save that would break them
  fails in the database, not in these services. `RawCodeCheckAdmitsCaseVariant` shows where
  the unique code constraint, not the service, would reject the request.
- `Map.of` refuses null values, so a category with a missing name makes the service throw
  a NullPointerException while building its response. The model returns the stored row
  instead of the response DTO, and does not model that exception.
- Reenactment.ReenactmentService.CreateBlock, Reenactment.ReenactmentService.UpdateBlock:
  these return the stored block rather than the BlockResponse DTO (public image URL and
  category code). The mapping is `ToListItem`'s mapping plus the text.
- Reenactment.ReenactmentService.CreateCategory: the stored row is returned in place of
  the CategoryResponse DTO, and the category's `createdAt` is not modelled.
- Sort orders are unbounded integers. Java's 32-bit `Integer` range is not modelled.
- Common.ToLowerAscii: `toLowerCase` is modelled for ASCII letters only. The Unicode case
  mapping is not modelled.
- Events.ParseLocalDate: only four-digit years (0000–9999) are accepted. The signed and
  longer years that `LocalDate.parse` also accepts are not modelled.
- Events.EventService.CreateEventWithFile, Events.EventService.UpdateEventWithFile: on an
  upload failure the model saves nothing and returns the error. It does not model the
  entity the failed call leaves behind in the persistence context.
- Galleries.GalleryService.UpdateGallery: `updatedAt` is not set by the source and not by
  the model. Any change the persistence layer makes to it on save is not modelled.
- AuthService.CurrentUser: it returns the stored JSON text. `JSON.parse`, and the
  SyntaxError it throws for the text "undefined", are not modelled.
- AuthService.LoginPayload: `JSON.stringify` is treated as the identity on the payload
  fields. Non-string values and a non-string token are not modelled.
- AuthService.ErrorItemText: an `errors` item that is null or undefined, for which
  `e.message` throws a TypeError, is not modelled.
- AuthService.LoginErrorMessage: an `errors` value that is truthy but not an array cannot
  be expressed. For such a value `.map` throws a TypeError inside the catch block.
- Console logging in the request interceptor is left out, as it does not affect behaviour.
- The request timeout and the base URL are left out. A timeout is a `NoReply`.
