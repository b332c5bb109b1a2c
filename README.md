# A verified model of the marketplace's accounts, rate limiter, media uploads and dashboards

This project models, in Dafny, the core of a seller and affiliate marketplace built on Next.js and MongoDB. It covers:

- **Records.** Sellers, affiliates and products, as their Mongoose schemas declare them. These are defaults, enums, setters and unique indexes. Each collection is an ordered store, so `findOne` returns the first match.
- **Account lifecycle.** The seller and affiliate account routes: signup, email verification, resending the verification email, login, refresh, logout, the session probe and the two seller record routes. Each route is a pure function from a request and a store to a reply and a new store. A route that changes the store also has a method that performs the update on a collection object and is proved equal to that function.
- **Rate limiter.** An in-process LRU cache of per-key counters. It is a class whose method is proved against the decision function. The affiliate routes pass through it before they read their body.
- **Shared helpers.** The session cookie builder, the JSON reply helper, the affiliate id slug, and the server-sent-events client registry with an event-stream reader that reads its payloads back.
- **Media uploads.** The upload route checks ownership, creates the product, sorts files by kind, enforces size limits, attaches files and charges storage. The seller's upload page screens media, keeps the form state and sends the requests.
- **Dashboards and signup forms.** The list operations of the admin and seller dashboards: filters, selection, toggles and deletion. The client-side checks of the two signup forms, linked to the replies of their routes.

The handlers model the code as it is written. Where the code does not do what it evidently means to do, a corrected definition stands beside the as-written one, with the intended property proved about it. Both halves are listed under "## Findings".

Signing and checking tokens, password hashing, email validity, fresh ids and random tokens, the clock and sending mail are outside the model. They enter as parameters or as abstract oracles:

- `Tokens.Issue` and `Tokens.Verify` stand for signing and checking tokens.
- `isEmail` stands for the schema's email check.
- `matches` stands for the password comparison.
- `now` is the clock.
- `mailOk` is whether a send succeeds.

## Model

| member | source | states |
|---|---|---|
| RateLimiter.Decide | app/lib/rateLimiter.ts:16-20 | a key whose count is at or above the limit is reported limited and nothing is written; otherwise its count rises by exactly one; every other key keeps its count and no key but the queried one is added |
| RateLimiter.DecideKeepsBounded | app/lib/rateLimiter.ts:18-19 | if no stored count exceeds the limit, none does after a decision |
| RateLimiter.Answers | app/lib/rateLimiter.ts:16-20 | the answers of n successive calls for one key, one per call |
| RateLimiter.AnswersFrom | app/lib/rateLimiter.ts:16-20 | the i-th of successive calls is limited exactly when the starting count plus i reaches the limit |
| RateLimiter.FreshKeyFiveTimes | app/lib/rateLimiter.ts:16-20 | with the default limit 5, a key with no entry gets exactly five "not limited" answers and then only "limited" |
| RateLimiter.Limiter.IsRateLimited | app/lib/rateLimiter.ts:16-20 | the method's answer and the cache it leaves are those of `Decide` on the old cache |
| RateLimiter.Limiter.Forget | app/lib/rateLimiter.ts:5-8 | an entry that expires or is evicted is gone, and its key then counts as 0 |
| Auth.SetJwtCookie | app/lib/auth.ts:49-62 | the header is `token=<token>`, then HttpOnly, Path=/, Max-Age=n and SameSite=Lax in that order, then `Secure` exactly in production, joined by "; " with no empty segment and no trailing separator |
| Auth.CookieStartsWithToken | app/lib/auth.ts:53 | the header starts with "token=" followed by the token |
| Auth.SecureIffProduction | app/lib/auth.ts:50-58 | the header ends in "; Secure" exactly in production |
| Auth.FilterSix | app/lib/auth.ts:52-60 | `filter(Boolean)` keeps the five fixed attributes and keeps `Secure` exactly in production |
| Auth.SignJwt | app/lib/auth.ts:26-32 | `signJwt` with no options gives a token that verifies exactly until seven days after signing |
| Auth.CookieMatchesTokenLifetime | app/lib/auth.ts:28-49 | the cookie's default Max-Age of 604800 seconds equals the token's default seven-day lifetime |
| JsonResponse.Respond | app/utils/jsonResponse.ts:1-13 | the response has the given status and a JSON content type; the body has exactly the keys success, message and data, in that order, with `success` equal to status < 400 |
| JsonResponse.SuccessIffBelow400 | app/utils/jsonResponse.ts:7 | `success` is true exactly for the statuses below 400 |
| JsonResponse.Defaults | app/utils/jsonResponse.ts:2-4 | with every argument left out: status 200, `success` true, an empty message and null data |
| AffiliateId.CollapseSpace | app/utils/generateAffiliateId.ts:10 | no blank survives the `\s+` replacement |
| AffiliateId.RunBecomesOneDash | app/utils/generateAffiliateId.ts:10 | a word followed by a run of blanks keeps the word and puts exactly one "-" in place of the run |
| AffiliateId.Slug | app/utils/generateAffiliateId.ts:7-11 | every character of the slug is in [a-z0-9-] |
| AffiliateId.GenerateAffiliateId | app/utils/generateAffiliateId.ts:4-12 | the id is the slug, a "-" and the six-character suffix, so its length is the slug's plus 7, and every character is in [a-z0-9-] |
| AffiliateId.SlugIdempotent | app/utils/generateAffiliateId.ts:7-11 | slugging a slug gives it back |
| Sse.Payload | app/lib/sse.ts:23 | the payload is "data: ", the JSON text and a blank line: it starts with "data: ", ends with two LFs and is eight characters longer than the JSON |
| Sse.IndexOfId | app/lib/sse.ts:17 | `findIndex`: the first client with the id, or none when no client has it |
| Sse.RemoveFirst | app/lib/sse.ts:16-19 | an unknown id leaves the list as it is; otherwise exactly the first client with the id is cut out and the rest keep their order |
| Sse.BroadcastWrites | app/lib/sse.ts:22-25 | one write per client, in list order, each of the same payload |
| Sse.Registry.Register | app/lib/sse.ts:9-13 | exactly one client is appended at the end, its id is the time's text followed by the random text, and that id is returned; nothing is written |
| Sse.Registry.Remove | app/lib/sse.ts:16-19 | the search loop and the splice leave the list `RemoveFirst` gives; nothing is written |
| Sse.Registry.Broadcast | app/lib/sse.ts:22-25 | the loop appends exactly `BroadcastWrites` to what was written, and leaves the list unchanged |
| Sse.RemoveUnknown | app/lib/sse.ts:18 | removing an id no client has is a no-op |
| Sse.RegisterThenRemove | app/lib/sse.ts:9-19 | registering a fresh id and removing it restores the list |
| Sse.PayloadDispatches | app/lib/sse.ts:23 | an event-stream reader that reads one payload dispatches exactly its JSON text, with the reader's buffer empty again |
| Sse.StreamRoundTrip | app/lib/sse.ts:22-25 | a client that receives a sequence of broadcasts reads back exactly their JSON texts, in order |
| SellerModel.NoVersionPath | app/models/sellers.ts:15-18 | neither `tokenVersion` nor `refreshTokenVersion` is a path the schema declares, although the record's interface lists one |
| SellerModel.Create | app/models/sellers.ts:86-185 | creation succeeds exactly when every required path is non-empty after the setters; the email is lowercased and trimmed, the names and phone trimmed; the record is pending and unverified with 0 failed attempts, KYC "none", the default upload limits (500, 3, 6, 100 MB, 5 MB), 0 storage used of 5000 MB, and no version field |
| SellerModel.FindById | app/models/sellers.ts:86-88 | the found seller has that `_id`; none is found only when no seller has it |
| SellerModel.FindByEmail | app/models/sellers.ts:94-100 | the first seller stored with exactly that email, or none when no seller has it |
| SellerModel.Insert | app/models/sellers.ts:88-102 | the unique indexes on `_id`, `sellerId`, email and phone refuse exactly a record that repeats a key; an accepted record is appended and the indexes stay unique |
| SellerModel.SaveKeepsKeys | app/models/sellers.ts:88-102 | writing a record back with the same keys keeps the store's keys unique |
| AffiliateModel.NewPayout | app/models/Affiliate.ts:112-125 | a payout entry given only its required paths is pending, stamped with the current time, and unpaid |
| AffiliateModel.VerificationPaths | app/models/Affiliate.ts:184-252 | the only verification-token paths the schema declares are `emailVerificationToken` and `emailVerificationExpires`; `verificationToken`, `verificationTokenExpires` and `isBanned` are not declared |
| AffiliateModel.Hydrate | app/models/Affiliate.ts:194-249 | read through the schema, an absent status is "pending", absent failed attempts 0, an absent KYC status "none" and an absent `refreshTokenVersion` 0; every other field is as stored |
| AffiliateModel.HydrateIdempotent | app/models/Affiliate.ts:194-249 | filling the defaults twice changes nothing more |
| AffiliateModel.FindByEmail | app/models/Affiliate.ts:188 | the first affiliate stored with exactly that email, or none when no affiliate has it |
| AffiliateModel.FindById | app/models/Affiliate.ts:184-186 | the found affiliate has that `_id`; none is found only when no affiliate has it |
| AffiliateModel.Insert | app/models/Affiliate.ts:186-188 | the unique indexes on `_id`, `affiliateId` and email refuse exactly a document that repeats a key; an accepted one is appended and the keys stay unique |
| AffiliateModel.SaveKeepsKeys | app/models/Affiliate.ts:186-188 | an update that keeps a document's keys keeps the store's keys unique |
| ProductModel.Create | app/models/Product.ts:52-72 | creation succeeds exactly when seller, trimmed title, trimmed description, category and currency are non-empty and the price is a number; the product is a draft with no tags, no images, videos or documents and zero views, clicks and conversions |
| MediaProcessor.GetKind | app/lib/mediaProcessor.ts:19-24 | an "image/" prefix gives image, else a "video/" prefix gives video; pdf exactly for "application/pdf"; promo exactly for everything else, so every MIME type has a kind |
| MediaProcessor.KindIsCaseSensitive | app/lib/mediaProcessor.ts:19-23 | "Image/png" and "VIDEO/mp4" are promo: the prefix tests are case-sensitive |
| MediaProcessor.BytesToCentiMBNearest | app/lib/mediaProcessor.ts:15-17 | the size in hundredths of a megabyte is the nearest hundredth of bytes / 2^20 (within half a hundredth, halves rounded up) |
| MediaProcessor.BytesToCentiMBMonotone | app/lib/mediaProcessor.ts:15-17 | a larger file never gets a smaller rounded size |
| MediaProcessor.ExtName | app/lib/mediaProcessor.ts:12 | `path.extname`: empty, or a "." followed by no other "." and no "/", taken from the end of the path |
| MediaProcessor.GenerateFilename | app/lib/mediaProcessor.ts:11-13 | the stored name ends with the original name's extension |
| MediaProcessor.GeneratedKeepsExtension | app/lib/mediaProcessor.ts:11-13 | for a UUID without "." or "/", the stored name's own extension is exactly the original's |
| MediaUpload.FormText | app/api/media/upload/route.ts:57-62 | a field the form lacks reads as its fallback, and an empty result only when the fallback is empty |
| MediaUpload.Files | app/api/media/upload/route.ts:82-85 | the collected files are no more than the entries, and none exactly when no entry is a file |
| MediaUpload.Items | app/api/media/upload/route.ts:98-129 | one stored item per file, in file order |
| MediaUpload.FirstOversized | app/api/media/upload/route.ts:98-111 | the first image or video over its seller's limit, with every earlier file within its limit; none when all are within |
| MediaUpload.Attach | app/api/media/upload/route.ts:134-144 | the images, videos and documents lists each grow by exactly the items of their kinds, in order, and nothing else of the product changes |
| MediaUpload.Charge | app/api/media/upload/route.ts:149-153 | the storage counter grows by the items' total size and nothing else of the seller changes |
| MediaUpload.Authorize | app/api/media/upload/route.ts:24-43 | the caller is signed in exactly when the `token` cookie verifies, carries a subject, and that subject names a stored seller |
| MediaUpload.ProductIndex | app/api/media/upload/route.ts:53 | a found position holds a product with that id; none means no product has it |
| MediaUpload.ChooseProduct | app/api/media/upload/route.ts:49-77 | a chosen product has the returned id and belongs to the signed-in seller |
| MediaUpload.CollectFiles | app/api/media/upload/route.ts:82-85 | the loop collects exactly the form's files in order |
| MediaUpload.WriteFiles | app/api/media/upload/route.ts:98-129 | the loop writes the items up to the first oversized file, reports that file, and the upload directory grows by exactly what was written |
| MediaUpload.WriteItems | app/api/media/upload/route.ts:98-129 | over any list of items: every item before the first refused one is written, in order, and nothing after it; with none refused, all are written |
| MediaUpload.Upload | app/api/media/upload/route.ts:17-163 | the handler's reply and the seller, product and file stores afterwards are those of the route's specification on the stores before |
| MediaUpload.UploadNeedsSeller | app/api/media/upload/route.ts:24-43 | without a verified token naming a stored seller the reply is 401 and no store changes |
| MediaUpload.OwnProductOnly | app/api/media/upload/route.ts:52-55 | with a product header, a success means the product exists, is the caller's, and only it changes; 403 exactly when it is missing or someone else's |
| MediaUpload.CreatedProductDefaults | app/api/media/upload/route.ts:57-75 | a form without fields creates a draft product with the documented fallbacks and empty media lists |
| MediaUpload.BlankTitleFails | app/api/media/upload/route.ts:57-75 | a blank title is kept by the fallback and then refused by the product schema |
| MediaUpload.NoFilesKeepsCreatedProduct | app/api/media/upload/route.ts:56-87 | a form without files gets 400 while the product created for it stays stored |
| MediaUpload.SizeGate | app/api/media/upload/route.ts:98-111 | 413 exactly when some image or video exceeds its limit; then the reply names the first such file, the earlier files stay written and neither product nor seller is updated |
| MediaUpload.DocumentsNeverTooLarge | app/api/media/upload/route.ts:103-106 | PDFs and promotional files are never refused for size |
| MediaUpload.PartitionExact | app/api/media/upload/route.ts:134-144 | the three filtered lists together hold every uploaded item exactly as often as it was uploaded |
| MediaUpload.PartitionByKind | app/api/media/upload/route.ts:136-141 | each list receives only items of its own kinds |
| MediaUpload.TotalSizeNonNegative | app/api/media/upload/route.ts:151 | the sum of the sizes is never negative |
| MediaUpload.TotalSizeAppend | app/api/media/upload/route.ts:151 | the sum over two lists is the sum of the sums |
| MediaUpload.StorageCharged | app/api/media/upload/route.ts:149-153 | a success charges exactly the items' total to the caller and no one else, and the outcome does not depend on the counter or the storage limit |
| UploadPage.ImageScan | app/seller/upload/page.tsx:101-115 | each chosen file is either accepted or reported, never both and never neither |
| UploadPage.ImageSelect | app/seller/upload/page.tsx:96-126 | an empty choice changes nothing; the list either stays or grows by exactly the accepted images, and never past four when it started within four |
| UploadPage.FilesOf | app/seller/upload/page.tsx:276-277 | one file per media entry |
| UploadPage.ImageScanAccepts | app/seller/upload/page.tsx:101-115 | the accepted files are exactly the chosen images within 5 MB, in order, all typed as images, and every other file gets one message |
| UploadPage.ImageScanScreens | app/seller/upload/page.tsx:103-113 | every accepted file has an "image/" type and is within 5 MB |
| UploadPage.FilesOfAt | app/seller/upload/page.tsx:276-277 | the i-th file sent is the i-th entry's file |
| UploadPage.ImageSelectAllOrNothing | app/seller/upload/page.tsx:117-125 | a selection that would pass four images adds none of them and ends the messages with the count message; otherwise it appends exactly the acceptable files |
| UploadPage.NoImageErrorIsTooMany | app/seller/upload/page.tsx:103-113 | no per-file message is the count message |
| UploadPage.NotCountMessage | app/seller/upload/page.tsx:104-120 | a message naming a file is never the count message |
| UploadPage.VideoScan | app/seller/upload/page.tsx:134-173 | each chosen file is either added as a video or reported |
| UploadPage.VideoSelect | app/seller/upload/page.tsx:129-174 | the videos already chosen are kept, in front |
| UploadPage.VideoScanTakesAll | app/seller/upload/page.tsx:156 | with fewer than three videos when the handler was made, every good video of the choice is added, however many |
| UploadPage.VideoSelectOverflows | app/seller/upload/page.tsx:156-166 | four good videos chosen at once on an empty list leave four videos, more than the three the page requires |
| UploadPage.VideoScanCorrected | app/seller/upload/page.tsx:134-173 | testing each file against the list as it grows never takes the list past three |
| UploadPage.VideoSelectCorrected | app/seller/upload/page.tsx:129-174 | the videos already chosen are kept, in front |
| UploadPage.VideoSelectCorrectedBounded | app/seller/upload/page.tsx:156-166 | the corrected handler never leaves more than three videos |
| UploadPage.VideoScanAgree | app/seller/upload/page.tsx:156-166 | when the list has room for every chosen file, the corrected and the written handler take the same videos |
| UploadPage.PdfSelect | app/seller/upload/page.tsx:199-212 | the slot only ever changes to the chosen file, and does so exactly when it is a PDF within 10 MB; at most one message |
| UploadPage.RemoveById | app/seller/upload/page.tsx:215-227 | no entry with the id remains, and every other entry remains as often as before |
| UploadPage.RemoveKeepsOrder | app/seller/upload/page.tsx:219 | removing from a concatenation removes from each part, so the order of what remains is kept |
| UploadPage.RemoveUnknownId | app/seller/upload/page.tsx:219 | removing an id no entry has changes nothing |
| UploadPage.ProblemsExact | app/seller/upload/page.tsx:232-247 | the list is empty exactly when every condition holds, and each message appears exactly when its own condition fails |
| UploadPage.Requests | app/seller/upload/page.tsx:263-279 | one request per image, per video and for the PDF if there is one |
| UploadPage.SubmitSendsNoDetails | app/seller/upload/page.tsx:263-279 | every request holds only a "file" field, so the upload route creates a product with the defaults an empty form gives and the typed details are lost |
| UploadPage.OnlyFileField | app/api/media/upload/route.ts:57-62 | a form holding only a "file" field reads every other field as its fallback |
| UploadPage.UploadForm.HandleImageSelect | app/seller/upload/page.tsx:96-126 | the image and error lists become those of the image selection on the old list; the at-most-four invariant is kept; nothing else changes |
| UploadPage.UploadForm.HandleVideoSelect | app/seller/upload/page.tsx:129-174 | the video and error lists become those of the video selection as written; nothing else changes |
| UploadPage.UploadForm.HandlePdfSelect | app/seller/upload/page.tsx:199-212 | the PDF slot and the errors become those of the PDF selection; nothing else changes |
| UploadPage.UploadForm.RemoveImage | app/seller/upload/page.tsx:215-220 | the images lose exactly the entries with the id; the invariant is kept; nothing else changes |
| UploadPage.UploadForm.RemoveVideo | app/seller/upload/page.tsx:222-227 | the videos lose exactly the entries with the id; nothing else changes |
| UploadPage.UploadForm.RemovePdf | app/seller/upload/page.tsx:229 | the PDF slot is emptied; nothing else changes |
| UploadPage.UploadForm.CollectErrors | app/seller/upload/page.tsx:232-247 | the messages are the validation problems of the current state |
| UploadPage.UploadForm.HandleSubmit | app/seller/upload/page.tsx:250-299 | with problems, nothing is sent and they are shown; otherwise every file is sent, and success resets the form while a failure shows one message and keeps everything; submitting ends false |
| UserManagement.FilteredUsers | app/components/dashboard/admin/UserManagement.tsx:84-93 | every listed user is a stored one passing the role, status and search filters, and every stored user passing them is listed |
| UserManagement.FilteredUsersKeepOrder | app/components/dashboard/admin/UserManagement.tsx:84-93 | the filter keeps the users' order |
| UserManagement.EmptySearchShowsAll | app/components/dashboard/admin/UserManagement.tsx:84-93 | with both filters on "all" and an empty search, every user is listed, in order |
| UserManagement.Toggled | app/components/dashboard/admin/UserManagement.tsx:100 | a suspended user becomes active, and any other user becomes suspended |
| UserManagement.ToggleSuspension | app/components/dashboard/admin/UserManagement.tsx:96-104 | the users with the id have their status toggled; every other user is unchanged |
| UserManagement.ToggleTwice | app/components/dashboard/admin/UserManagement.tsx:96-104 | toggling twice restores every user except a pending one with the id, which ends active |
| UserManagement.Delete | app/components/dashboard/admin/UserManagement.tsx:109 | no user with the id remains, and every other user remains as often as before |
| UserManagement.DeleteKeepsOrder | app/components/dashboard/admin/UserManagement.tsx:109 | deletion keeps the order of the rest |
| UserManagement.UserTable.HandleSuspend | app/components/dashboard/admin/UserManagement.tsx:96-104 | the table becomes the toggled table |
| UserManagement.UserTable.HandleDelete | app/components/dashboard/admin/UserManagement.tsx:107-111 | a confirmed delete removes the users with the id; a declined one changes nothing |
| PayoutsManagement.Ids | app/components/dashboard/seller/payAndAfiliateManagement.tsx:86 | the i-th id is the i-th pending payout's |
| PayoutsManagement.Select | app/components/dashboard/seller/payAndAfiliateManagement.tsx:90-96 | a selected id is removed and nothing else changes; an unselected one is appended |
| PayoutsManagement.SelectAll | app/components/dashboard/seller/payAndAfiliateManagement.tsx:82-88 | a selection as long as the list is cleared; any other becomes every pending id |
| PayoutsManagement.SelectKeepsSelectionOk | app/components/dashboard/seller/payAndAfiliateManagement.tsx:90-96 | selecting a listed row keeps the selection to distinct pending ids |
| PayoutsManagement.SelectAllKeepsSelectionOk | app/components/dashboard/seller/payAndAfiliateManagement.tsx:82-88 | select-all keeps the selection to distinct pending ids |
| PayoutsManagement.Pigeonhole | app/components/dashboard/seller/payAndAfiliateManagement.tsx:204 | distinct ids drawn from a list of distinct ids are no more than it, and as many only when they cover it |
| PayoutsManagement.CountWithout | app/components/dashboard/seller/payAndAfiliateManagement.tsx:92 | removing a present id from distinct ids shortens them by one |
| PayoutsManagement.OnceAtMost | app/components/dashboard/seller/payAndAfiliateManagement.tsx:92 | a list of distinct ids holds each id at most once |
| PayoutsManagement.HeaderMeansAllSelected | app/components/dashboard/seller/payAndAfiliateManagement.tsx:204 | while the selection keeps to distinct pending ids, the header box, which compares lengths, is checked exactly when every pending row is selected |
| PayoutsManagement.TotalSelectedBounds | app/components/dashboard/seller/payAndAfiliateManagement.tsx:98-100 | the total is zero when no row is selected and the full total when every row is |
| PayoutsManagement.TotalSelectedIgnoresLater | app/components/dashboard/seller/payAndAfiliateManagement.tsx:98-100 | the total depends only on which listed rows are selected |
| PayoutsManagement.PayoutTable.HandleSelect | app/components/dashboard/seller/payAndAfiliateManagement.tsx:90-96 | the selection becomes the toggled selection and stays distinct pending ids |
| PayoutsManagement.PayoutTable.HandleSelectAll | app/components/dashboard/seller/payAndAfiliateManagement.tsx:82-88 | the selection becomes the select-all result and stays distinct pending ids |
| ProductsCampaigns.ToggleStatus | app/components/dashboard/seller/productsCampaign.tsx:64-72 | the campaigns with the id switch between active and paused; every other campaign is unchanged |
| ProductsCampaigns.ToggleTwiceRestores | app/components/dashboard/seller/productsCampaign.tsx:64-72 | toggling twice restores the list |
| ProductsCampaigns.ButtonLabel | app/components/dashboard/seller/productsCampaign.tsx:175 | the button reads "Pause" exactly for an active campaign |
| ProductsCampaigns.ToggleSwapsLabel | app/components/dashboard/seller/productsCampaign.tsx:64-72 | toggling a campaign changes its button label |
| ProductsCampaigns.CampaignList.HandleToggleStatus | app/components/dashboard/seller/productsCampaign.tsx:64-72 | the list becomes the toggled list |
| ProductList.FilteredProducts | app/components/dashboard/seller/product.tsx:106-116 | every listed product is a stored one whose name contains the search, ignoring case, and passes the status filter; every such product is listed |
| ProductList.UnknownFilterShowsNothing | app/components/dashboard/seller/product.tsx:110-114 | a status filter other than all, active, low and out lists nothing |
| ProductList.FilteredProductsKeepOrder | app/components/dashboard/seller/product.tsx:106-116 | the filter keeps the products' order |
| AuditLogs.FilteredLogs | app/components/dashboard/admin/AuditLogs.tsx:77-85 | every listed entry is a stored one passing the status filter and the search on user, action or resource; every such entry is listed |
| AuditLogs.FilteredLogsKeepOrder | app/components/dashboard/admin/AuditLogs.tsx:77-85 | the filter keeps the entries' order |
| AuditLogs.FilteredLogsCount | app/components/dashboard/admin/AuditLogs.tsx:77-85 | a shown entry is listed as often as it is stored, a hidden one never |
| AuditLogs.AlertColor | app/components/dashboard/admin/AuditLogs.tsx:105-112 | the three alert types get three different styles |
| ContentHub.FilteredCreatives | app/components/dashboard/seller/ContentHub.tsx:75-78 | "all" lists every creative; a type lists exactly the creatives of that type, each as often as stored |
| ContentHub.FilteredCreativesKeepOrder | app/components/dashboard/seller/ContentHub.tsx:75-78 | the filter keeps the creatives' order |
| SellerAuth.CurrencyFor | app/api/auth/seller/signup/route.ts:18-45 | the currency is one of the table's, and UGX for a country the table lacks |
| SellerAuth.CurrencyIgnoresCase | app/api/auth/seller/signup/route.ts:45 | writing the country in capitals gives the same currency |
| SellerAuth.FindDuplicate | app/api/auth/seller/signup/route.ts:48-50 | a hit is a seller with the email or the phone; a miss means no seller has either; the route passes the phone trimmed, as the schema's `trim` setter (app/models/sellers.ts:102) rewrites the filter |
| SellerAuth.SignupSpec | app/api/auth/seller/signup/route.ts:28-96 | the status is one of 201, 400, 409 and 500 |
| SellerAuth.SignupContract | app/api/auth/seller/signup/route.ts:32-96 | 400 exactly for a body the schema refuses, 409 exactly for a seller with the normalised email or the trimmed phone; at most one seller is appended, pending, unverified, with the normalised email, the country's currency and a day-long token; 201 exactly when one was stored and the email went out; unique keys survive |
| SellerAuth.FindByLiveToken | app/api/auth/seller/verify/route.ts:19-22 | a hit holds the token unexpired; a miss means no seller does |
| SellerAuth.VerifySpec | app/api/auth/seller/verify/route.ts:5-63 | 400 exactly for a missing token or one no seller holds unexpired, with the store unchanged; otherwise that seller becomes verified and active with the token cleared, then 500 without a base URL or a redirect to the success page |
| SellerAuth.ResendTarget | app/api/auth/seller/resend-verification/route.ts:20-34 | a target is an unverified seller |
| SellerAuth.ResendSpec | app/api/auth/seller/resend-verification/route.ts:7-63 | a falsy email gets 400; 404 exactly for an email no seller has; only an unverified seller's token and expiry are replaced, and 200 exactly when the email then went out to that address with the new token |
| SellerAuth.LoginCookies | app/api/auth/seller/login/route.ts:66-91 | two http-only strict cookies, secure in production: a 15-minute access token at "/" and a day-long refresh token carrying the version, defaulting to 0, at the refresh path |
| SellerAuth.LoginTarget | app/api/auth/seller/login/route.ts:35-48 | a target is found by email, not banned and verified |
| SellerAuth.LoginSpec | app/api/auth/seller/login/route.ts:14-104 | the status is 200, 400, 401 or 403; every 401 says "Invalid credentials"; only 200 sets cookies |
| SellerAuth.LoginGates | app/api/auth/seller/login/route.ts:18-48 | a refused body is 400; without a target the store is unchanged and nothing succeeds; 403 exactly for a found, unbanned, unverified seller |
| SellerAuth.LoginOutcome | app/api/auth/seller/login/route.ts:50-96 | past the gates a wrong password adds one failed attempt and gets 401; a right one resets the counter, stamps the time and sets the login cookies |
| SellerAuth.LoginHidesWhy | app/api/auth/seller/login/route.ts:39-43 | an unknown email and a banned seller get exactly the wrong-password answer and change nothing |
| SellerAuth.RefreshSpec | app/api/auth/seller/refresh/route.ts:7-51 | 401 without a verifying cookie, 404 exactly when its subject is unknown, 200 exactly when the token's version equals the stored raw version, and then only a new access cookie |
| SellerAuth.RefreshSpecCorrected | app/api/auth/seller/refresh/route.ts:30 | 200 exactly when the token's version equals the stored version read with the login's default of 0 |
| SellerAuth.LogoutSpec | app/api/auth/seller/logout/route.ts:7-45 | always a redirect to the origin's root clearing both cookies; with `$inc` taking effect on the undeclared path, the seller a verified access token names has its version raised by one, and nobody else changes |
| SellerAuth.Signup | app/api/auth/seller/signup/route.ts:28-96 | the handler's reply and store are the signup specification's on the store before |
| SellerAuth.VerifyEmail | app/api/auth/seller/verify/route.ts:5-63 | the handler's reply and store are the verify specification's |
| SellerAuth.ResendVerification | app/api/auth/seller/resend-verification/route.ts:7-63 | the handler's reply and store are the resend specification's |
| SellerAuth.Login | app/api/auth/seller/login/route.ts:14-104 | the handler's reply and store are the login specification's |
| SellerAuth.Logout | app/api/auth/seller/logout/route.ts:7-45 | the handler's reply and store are the logout specification's |
| AffiliateAuth.FirstEntry | app/api/auth/affiliate/signup/route.ts:35 | the first entry is a comma-free prefix of the header |
| AffiliateAuth.SignupClientIp | app/api/auth/affiliate/signup/route.ts:34-37 | never empty: the trimmed first forwarded address if any, else a non-empty `x-real-ip`, else "0.0.0.0" |
| AffiliateAuth.ClientIp | app/api/auth/affiliate/login/route.ts:15 | never empty, so every request has a limiter key |
| AffiliateAuth.ForwardedIpShape | app/api/auth/affiliate/signup/route.ts:35 | a forwarded address holds no comma and no blank at either end |
| AffiliateAuth.SameAddressWithoutRealIp | app/api/auth/affiliate/resend-verification/route.ts:16-17 | without `x-real-ip` signup keys the limiter by the address resend and login use |
| AffiliateAuth.StoredPhone | app/api/auth/affiliate/signup/route.ts:17-22 | a stored phone is non-empty, holds only digits and '+', and is no longer than what was sent |
| AffiliateAuth.StoredPhoneKeepsDigits | app/api/auth/affiliate/signup/route.ts:22 | a phone of digits and '+' is stored as sent |
| AffiliateAuth.InitialsFrom | app/api/auth/affiliate/signup/route.ts:118 | the initials are word characters and no more than the name's characters |
| AffiliateAuth.InsideWord | app/api/auth/affiliate/signup/route.ts:118 | the inside of a word contributes no initial |
| AffiliateAuth.WordThenRest | app/api/auth/affiliate/signup/route.ts:118 | a word then a separator gives the word's first character, then the initials of the rest |
| AffiliateAuth.HexDigit | app/api/auth/affiliate/signup/route.ts:119 | an upper-case hexadecimal digit |
| AffiliateAuth.Hex4 | app/api/auth/affiliate/signup/route.ts:119 | two random bytes give four digits |
| AffiliateAuth.HexDigitRoundTrip | app/api/auth/affiliate/signup/route.ts:119 | reading a digit back gives its value |
| AffiliateAuth.Hex4RoundTrip | app/api/auth/affiliate/signup/route.ts:119 | reading the four digits back gives the number |
| AffiliateAuth.ReferralPrefix | app/api/auth/affiliate/signup/route.ts:118 | one to three characters: the first three initials in capitals, or "AFF" |
| AffiliateAuth.ReferralCode | app/api/auth/affiliate/signup/route.ts:117-119 | five to seven characters: the prefix, then exactly the four hex digits of the random number |
| AffiliateAuth.ReferralCodeAlphabet | app/api/auth/affiliate/signup/route.ts:117-119 | every character is an upper-case letter, a digit or '_' |
| AffiliateAuth.Gate | app/api/auth/affiliate/signup/route.ts:42-51 | a limited call answers 429 and leaves the store; otherwise the route's answer and store stand; the limiter is the decision's |
| AffiliateAuth.GateCounts | app/lib/rateLimiter.ts:16-20 | 429 exactly when the key had reached the limit; a refused call changes nothing; an admitted one adds exactly one to its key and no other |
| AffiliateAuth.SignupBody | app/api/auth/affiliate/signup/route.ts:56-212 | the status is 201, 400, 409 or 500 |
| AffiliateAuth.SignupSpec | app/api/auth/affiliate/signup/route.ts:29-213 | the status is 201, 400, 409, 429 or 500 |
| AffiliateAuth.SignupContract | app/api/auth/affiliate/signup/route.ts:56-208 | 400 exactly for a body that is not JSON or that the schema refuses; 409 exactly for a stored email, its message telling verified from unverified; otherwise at most one record appended, 201 exactly when it was, emailed its token; unique keys survive |
| AffiliateAuth.SignupRecord | app/api/auth/affiliate/signup/route.ts:112-179 | the new record is pending and unverified with the normalised email, the filtered phone, the referral code and the token under `emailVerificationToken` for a day; it has no `verificationToken` and no version, which reads as 0 |
| AffiliateAuth.FindByResendToken | app/api/auth/affiliate/verify/route.ts:13 | a hit holds the token under `verificationToken`; a miss means no record does |
| AffiliateAuth.VerifySpec | app/api/auth/affiliate/verify/route.ts:4-29 | 400 exactly for a missing token or one no record holds under `verificationToken`, with the store unchanged; otherwise that record becomes verified and loses the token, its status and expiry untouched |
| AffiliateAuth.VerifySingleUse | app/api/auth/affiliate/verify/route.ts:13-22 | a token held once verifies once: the second use gets 400 |
| AffiliateAuth.VerifyIgnoresExpiry | app/api/auth/affiliate/verify/route.ts:13 | a held token verifies whatever its expiry |
| AffiliateAuth.ResendTarget | app/api/auth/affiliate/resend-verification/route.ts:40-51 | a target is an unverified affiliate |
| AffiliateAuth.ResendBody | app/api/auth/affiliate/resend-verification/route.ts:24-78 | a body that is not a valid email gets 400; 404 exactly for an unknown email; only an unverified affiliate gets the new token and expiry under `verificationToken…`, 200 and the email, and its `emailVerificationToken` is left as it was |
| AffiliateAuth.ResendSpec | app/api/auth/affiliate/resend-verification/route.ts:14-83 | the status is 200, 400, 404 or 429 |
| AffiliateAuth.ResendThenVerify | app/api/auth/affiliate/verify/route.ts:13-24 | after a resend the emailed token verifies the account |
| AffiliateAuth.TokenCookie | app/api/auth/affiliate/login/route.ts:77-78 | the `token` cookie: http-only, lax, path "/", seven days, secure in production, a JWT for the public affiliate id and role that verifies exactly until seven days from now |
| AffiliateAuth.LoginTarget | app/api/auth/affiliate/login/route.ts:42-56 | a target is found, verified and not banned |
| AffiliateAuth.LoginBody | app/api/auth/affiliate/login/route.ts:23-93 | the status is 200, 400, 401 or 403; every 401 says "Invalid email or password"; only 200 sets a cookie |
| AffiliateAuth.LoginSpec | app/api/auth/affiliate/login/route.ts:13-98 | the status is 200, 400, 401, 403 or 429 |
| AffiliateAuth.LoginGates | app/api/auth/affiliate/login/route.ts:30-56 | a refused body is 400; without a target nothing is written; 403 exactly for a found account unverified or banned, and "not verified" wins when both |
| AffiliateAuth.LoginOutcome | app/api/auth/affiliate/login/route.ts:58-93 | a wrong password adds one to the counter (absent counts as 0) and stamps the failure; a right one stamps time and address, zeroes the counter and sets the token cookie |
| AffiliateAuth.LoginCountsEveryAttempt | app/api/auth/affiliate/login/route.ts:18 | every admitted attempt, successful or not, adds one to the address's count |
| AffiliateAuth.FindByLiveToken | app/models/Affiliate.ts:201-202 | a hit holds the emailed token unexpired; a miss means no record does |
| AffiliateAuth.VerifySpecCorrected | app/api/auth/affiliate/verify/route.ts:13-24 | 400 exactly for a missing token or one no record holds unexpired under `emailVerificationToken`; otherwise that record becomes verified and loses the token |
| AffiliateAuth.ResendBodyCorrected | app/api/auth/affiliate/resend-verification/route.ts:58-66 | only an unverified affiliate is written, with the new token under `emailVerificationToken` |
| AffiliateAuth.SignupTokenNeverVerifies | app/api/auth/affiliate/verify/route.ts:13 | as written, the token a successful signup emails is refused by verify |
| AffiliateAuth.SignupThenVerifyCorrected | app/api/auth/affiliate/signup/route.ts:112-131 | with the corrected verify, the signup token verifies the new account until it expires |
| AffiliateAuth.ResendThenVerifyCorrected | app/api/auth/affiliate/resend-verification/route.ts:54-66 | with the corrected pair, a resent token verifies the account until it expires |
| AffiliateAuth.Signup | app/api/auth/affiliate/signup/route.ts:29-213 | the handler's reply, store and limiter are the signup specification's |
| AffiliateAuth.VerifyEmail | app/api/auth/affiliate/verify/route.ts:4-29 | the handler's reply and store are the verify specification's |
| AffiliateAuth.ResendVerification | app/api/auth/affiliate/resend-verification/route.ts:14-83 | the handler's reply, store and limiter are the resend specification's |
| AffiliateAuth.Login | app/api/auth/affiliate/login/route.ts:13-98 | the handler's reply, store and limiter are the login specification's |
| SessionRoutes.ReissueAccess | app/api/refresh/route.ts:33-36 | a genuine token for the account with the old role and no version, verifying exactly until ten minutes from now |
| SessionRoutes.Account | app/api/refresh/route.ts:26-28 | an account is found under the token's subject: in the seller store exactly for the role "seller", in the affiliate store for any other role |
| SessionRoutes.SharedRefreshSpec | app/api/refresh/route.ts:11-54 | 200 exactly for a verifying refresh token whose account exists and whose version equals the account's `refreshTokenVersion`, defaulting to 0, and then a new ten-minute access cookie; every failure is the same empty 401 |
| SessionRoutes.SharedLogoutTarget | app/api/auth/logout/route.ts:13-17 | the seller written is the one the unverified `sellerId` claim names |
| SessionRoutes.SharedLogoutCookies | app/api/auth/logout/route.ts:25-43 | both cookies are cleared at path "/", http-only, lax, secure in production |
| SessionRoutes.SharedLogoutSpec | app/api/auth/logout/route.ts:6-46 | a cookie that does not decode crashes the route with nothing cleared; otherwise 200 and both cookies cleared; with `$inc` taking effect on the undeclared path, only the seller the claim names has `refreshTokenVersion` raised by one |
| SessionRoutes.SharedLogout | app/api/auth/logout/route.ts:6-46 | the handler's reply and store are the shared logout specification's |
| SessionRoutes.SharedLogoutIgnoresMintedTokens | app/api/auth/logout/route.ts:17 | a refresh token from seller login carries no `sellerId`, so the shared logout writes nothing |
| SessionRoutes.ForgedCookieBumps | app/api/auth/logout/route.ts:13-19 | with `$inc` taking effect on the undeclared path, an unsigned cookie naming a seller raises that seller's version |
| SessionRoutes.SharedRefreshReads | app/api/refresh/route.ts:27-30 | the shared refresh reads only the sellers' ids and `refreshTokenVersion` |
| SessionRoutes.SellerRefreshReads | app/api/auth/seller/refresh/route.ts:25-30 | the seller refresh reads only the sellers' ids and `tokenVersion` |
| SessionRoutes.SellerLogoutMissesSharedRefresh | app/api/auth/seller/logout/route.ts:17-19 | a seller logout leaves every answer of the shared refresh route as it was |
| SessionRoutes.SharedLogoutMissesSellerRefresh | app/api/auth/logout/route.ts:17-19 | the shared logout leaves every answer of the seller refresh route as it was |
| SessionRoutes.SameIdsSameLookups | app/models/sellers.ts:86-88 | stores with the same ids position by position answer every lookup by id alike |
| SessionRoutes.SessionSpec | app/api/auth/session/route.ts:8-22 | valid exactly when the `token` cookie verifies, with 200, else 401 |
| SessionRoutes.SessionIgnoresSellerLogin | app/api/auth/session/route.ts:10 | a seller's login cookies never satisfy the probe |
| SessionRoutes.SessionAfterAffiliateLogin | app/api/auth/session/route.ts:10-18 | an affiliate's login cookie satisfies the probe for seven days |
| SessionRoutes.SellerGuard | app/seller/layout.tsx:5-24 | redirect to the seller login exactly without `accessToken`; the verification error escapes exactly for a token that does not verify; the pages render exactly for a verifying seller token |
| SessionRoutes.AffiliateGuard | app/affiliate/layout.tsx:5-25 | never throws; back to the affiliate login exactly when `token` does not verify; the pages render exactly for a verifying affiliate token |
| SessionRoutes.SellerLoginOpensSellerPages | app/seller/layout.tsx:11-23 | a seller's login cookies open the seller pages while the access token lives |
| SessionRoutes.SellerGuardThrowsWhenExpired | app/seller/layout.tsx:17-18 | once the access token has expired the guard throws instead of redirecting |
| SessionRoutes.AffiliateLoginOpensAffiliatePages | app/affiliate/layout.tsx:10-24 | an affiliate's login cookie opens the affiliate pages and never the seller pages |
| SessionRoutes.DetailsSpec | app/api/seller/details/route.ts:7-45 | 401 exactly without a verifying token carrying a non-empty `sellerId`; 200 exactly with data, which is the named seller's record with password, verification token and phone code hidden |
| SessionRoutes.DetailsRefusesMintedTokens | app/api/seller/details/route.ts:22-23 | every token the routes mint is refused with 401 |
| SessionRoutes.FirstMatch | app/api/seller/check/route.ts:12 | the leftmost place, at or after the start, where "token=" and a character other than ';' begin |
| SessionRoutes.UpToSemicolon | app/api/seller/check/route.ts:12 | a semicolon-free prefix that stops only at a ';' or the end |
| SessionRoutes.ExtractToken | app/api/seller/check/route.ts:11-13 | a capture exists exactly when the header matches somewhere, and it is non-empty and semicolon-free |
| SessionRoutes.ExtractLeadingCookie | app/api/seller/check/route.ts:12-13 | a header starting with the `token` cookie gives its value |
| SessionRoutes.ExtractInsideLongerName | app/api/seller/check/route.ts:12 | a cookie whose name only ends in "token" is matched all the same |
| SessionRoutes.CheckSpec | app/api/seller/check/route.ts:7-46 | 401 exactly when no token text is found or it does not verify; 200 exactly with data, the whole record of the seller the `sellerId` claim names |
| SessionRoutes.CheckExposesWhatDetailsHides | app/api/seller/check/route.ts:38 | where check answers, it hides nothing, the password hash included |
| SessionRoutes.RefreshCookieNeverSent | app/api/auth/seller/login/route.ts:89 | the refresh cookie's path serves neither refresh route, so the browser never sends it to them |
| SessionRoutes.RefreshCookieSentCorrected | app/api/auth/seller/login/route.ts:89 | scoped to the seller refresh route, the cookie reaches it, and only paths below it |
| SessionRoutes.LoginThenRefresh | app/api/auth/seller/refresh/route.ts:30 | after a successful login, the refresh token is honoured within its day exactly when the record already held a version (possible only if `$inc` took effect), and refused with 401 for one that never logged out |
| SessionRoutes.LoginThenRefreshCorrected | app/api/auth/seller/refresh/route.ts:30 | with the corrected comparison, the login's refresh token is honoured exactly for its day |
| SessionRoutes.LoginKeepsLookup | app/api/auth/seller/login/route.ts:61-63 | a successful login keeps the store's size, the seller's position, id and version |
| SignupAnswers.SellerAnswer | app/api/auth/seller/signup/route.ts:81-94 | the page sees the route's status and message unchanged, and a truthy `success` exactly for status 201 |
| SellerSignupForm.PreCheck | app/components/layout/sellersignup.tsx:41-57 | no complaint exactly when the passwords match, the terms are accepted and a country is chosen; otherwise the first failing check's message, in the page's order |
| SellerSignupForm.SubmitSpec | app/components/layout/sellersignup.tsx:35-104 | a request is sent exactly when the checks pass, and it is the request body built from the fields; a status is always shown |
| SellerSignupForm.PreCheckStopsSubmit | app/components/layout/sellersignup.tsx:41-57 | a failed check is shown as an error, nothing is sent and the fields stay as typed |
| SellerSignupForm.RequestBodyFields | app/components/layout/sellersignup.tsx:65-72 | the body carries the six typed fields under the route's names, the phone as `phoneNumber`, and nothing from the confirmation or the terms box |
| SellerSignupForm.SuccessResetsFields | app/components/layout/sellersignup.tsx:77-96 | success exactly for an ok status with a truthy `success`, and then every field is cleared and a non-empty message shown; a failure keeps the fields |
| SellerSignupForm.ShortPasswordRefusedByRoute | app/api/auth/seller/signup/route.ts:14 | a password under 8 characters passes the page, is refused by the route with 400 and the store unchanged, and the page shows the route's message with the fields kept |
| SellerSignupForm.SignupPage.HandleSubmit | app/components/layout/sellersignup.tsx:35-104 | the request sent and the new fields, status and message are the submit specification's; the page is no longer submitting afterwards |
| AffiliateSignupForm.PreCheck | app/components/layout/affiliatesignup.tsx:31-42 | no complaint exactly when the passwords match and are at least 8 characters; a mismatch is reported before the length |
| AffiliateSignupForm.ErrorText | app/components/layout/affiliatesignup.tsx:77-81 | never empty: `message`, else `error`, else the first email error, else the fixed fallback text |
| AffiliateSignupForm.SubmitSpec | app/components/layout/affiliatesignup.tsx:24-90 | a request is sent exactly when the checks pass, and it is the body built from the fields; an alert with a non-empty message is always shown |
| AffiliateSignupForm.PreCheckStopsSubmit | app/components/layout/affiliatesignup.tsx:31-42 | a failed check is shown as an error alert, nothing is sent and the fields stay as typed |
| AffiliateSignupForm.SuccessUnlessFlagFalse | app/components/layout/affiliatesignup.tsx:59-74 | success exactly for an ok status whose `success` is not the boolean false (an absent flag counts); success clears the fields, a failure keeps them |
| AffiliateSignupForm.BodyMeetsRoutePasswordRule | app/components/layout/affiliatesignup.tsx:50-54 | a body that passed the page's checks is valid for the route exactly when the name has 2 to 200 characters and the email is an email |
| AffiliateSignupForm.PasswordRuleAgrees | app/components/layout/affiliatesignup.tsx:36-42 | for matching passwords, the page lets the form through exactly when the route's schema accepts the password |
| AffiliateSignupForm.SignupPage.HandleSubmit | app/components/layout/affiliatesignup.tsx:24-90 | the request sent and the new fields and alert are the submit specification's; the page is no longer submitting afterwards |
| Tokens.Issue | app/lib/jwt.ts:53-61 | a signed token carries the given subject, role and version and no `sellerId`, and verifies exactly until its lifetime ends |
| Tokens.Verify | app/lib/jwt.ts:67-85 | claims exactly for a genuine, unexpired token, and then the token's own claims |
| Tokens.DecodeUnverified | app/api/auth/logout/route.ts:13-15 | base64-decoding the middle segment gives claims for anything shaped like a token, whether signed by the server or not |
| Tokens.VerifyMonotone | app/lib/jwt.ts:79-85 | a token that verifies at some time verified at every earlier time |
| Text.NormalizeEmailIdempotent | app/models/sellers.ts:94-100 | lowercasing and trimming an email already lowercased and trimmed changes nothing |
| MediaProcessor.PlainExtName | app/lib/mediaProcessor.ts:12 | the extension of a plain file name runs from its last '.' to the end |
| RateLimiter.Limiter.constructor | app/lib/rateLimiter.ts:5-8 | the cache starts with no entries |
| Sse.Registry.constructor | app/lib/sse.ts:6 | the client list starts empty and nothing has been written |
| UploadPage.UploadForm.constructor | app/seller/upload/page.tsx:24-40 | the form starts with empty details except currency "UGX" and status draft, no media, no PDF, no errors or message, and not submitting |

## Left out

- Signing, verifying and decoding tokens, and password hashing, are oracles (`Tokens`, `matches`). One server secret signs every kind of token, and expiry is compared against an integer clock.
- Email delivery is a `mailOk` flag where the route awaits the send. The affiliate signup's fire-and-forget send is not modelled, since it cannot change the reply.
- Writing files and creating directories are modelled as items appended to `MediaUpload.UploadDir`. Generated ids and UUIDs are fresh parameters.
- The database is a set of in-memory ordered stores, and the routes run one after another. Racing requests and the atomicity of updates are not modelled.
- The rate limiter's LRU eviction order and TTL are not modelled. `RateLimiter.Limiter.Forget` lets an entry disappear at any time, which covers both expiry and eviction.
- Sizes are whole hundredths of a megabyte and payout amounts are whole cents. Floating-point sums and rounding in the sources are not modelled. The client page's duration rounding is not modelled either.
- Case mapping is ASCII only: `toLowerCase` and `toUpperCase` leave every other character as it is. Trimming uses JavaScript's full whitespace set. String lengths count characters, whereas zod and `.length` count UTF-16 code units.
- `SellerAuth.CurrencyFor` looks only at the seven listed countries. Keys inherited from a JavaScript object's prototype are not modelled.
- The schema does not declare `tokenVersion` or `refreshTokenVersion` (`SellerModel.NoVersionPath`). Under Mongoose's strict mode, saves drop these paths, `$inc` updates on them are stripped, and reading them on a document gives `undefined`. The model keeps them as optional fields that `$inc` updates and that reads see. The members below therefore describe the routes as if the paths were declared:
- Logout: the seller logout (app/api/auth/seller/logout/route.ts:17-19) is modelled as raising the seller's `tokenVersion` by one. With the schema as written, Mongoose strips that `$inc` and no seller changes.
- SharedLogout: the shared logout (app/api/auth/logout/route.ts:17-19) is modelled as raising the named seller's `refreshTokenVersion` by one. With the schema as written, Mongoose strips that `$inc` and no seller changes.
- LogoutSpec: states the raise by one that the seller logout would make if `tokenVersion` were declared. Its cookie and redirect clauses hold as written.
- SharedLogoutSpec: states the raise by one that the shared logout would make if `refreshTokenVersion` were declared. Its crash, status and cookie clauses hold as written.
- ForgedCookieBumps: holds only if `refreshTokenVersion` were declared. With the schema as written, a forged cookie writes nothing.
- LoginThenRefresh: its case of a record that already holds a version needs a version that was written and that the refresh route can read. With the schema as written, the route reads `undefined` (app/api/auth/seller/login/route.ts:73, app/api/auth/seller/refresh/route.ts:30), so every refresh after a login is refused with 401.
- A malformed id that makes Mongoose throw a cast error is not modelled. Lookups by id just find nothing.
- A request body that is not a JSON object is modelled as having every field missing. The affiliate routes' `data` envelopes in replies are not modelled.
- The affiliate record's commission rate is kept as a real value. The signup route writes 0.1, whereas the schema's default is 10.
- The affiliate routes' `updateOne` is modelled as a write at the index `findOne` found. The update's filter picks the same record.
- The page guards' redirects are outcomes. Rendering the pages is not modelled. The seller guard letting a verification error escape is modelled as its own outcome.
- The event-stream reader used to read back broadcasts handles LF line endings only. The writers, which are browser streams, are modelled as a list of written payloads.
- The base URL setting is modelled as an origin string, or as missing.
- The dashboards' data is hard-coded sample data, so the lists are parameters. Rendering, search-box state and the pages' static option lists are not modelled.
- PayoutsManagement.TotalSelected has no contract of its own. Its bounds and its indifference to later rows are lemmas (`TotalSelectedBounds`, `TotalSelectedIgnoresLater`).
- PayoutsManagement.PayoutTable takes the pending payouts' ids to be distinct, as the sample data has them.
- The upload page's preview URLs and their revocation are not modelled, nor is measuring a video's duration. The duration is an input to each selected file.
- The upload page allows 50 MB per video, the route 100 MB. Both limits are modelled as written.
- The upload page's parallel requests are modelled as one failure message when any request fails.
- The upload route's generic 500 reply for unexpected exceptions is not modelled.
- When `Product.create` fails validation, the upload route's 500 reply is modelled with only the start of Mongoose's message, "Product validation failed". The failing paths and their reasons that follow it are not modelled.
- In the signup forms, an empty string stands for an absent reply field, and a failed fetch or JSON parse is the `Thrown` answer. `console.error` is not modelled. The affiliate route's 400 `{errors}` envelope enters the form only through `ErrorText`'s list of email errors.
- Presentation components, simulated live feeds, charts, login pages, hooks and client redirect shells carry no behaviour beyond rendering, so they are not modelled.

## Findings

| source | as written | input that shows it | evidently intended | confidence | as-written member | corrected member |
|---|---|---|---|---|---|---|
| app/api/auth/affiliate/verify/route.ts:13 | the verify route looks the token up under `verificationToken`, but signup stores it under `emailVerificationToken` | a fresh signup, then verify with the token from the signup email: 400, and the account stays unverified | the lookup reads the field signup writes, and honours its expiry | not executed | AffiliateAuth.SignupTokenNeverVerifies | AffiliateAuth.SignupThenVerifyCorrected |
| app/api/auth/seller/refresh/route.ts:30 | the refresh route compares the token's version with the raw `tokenVersion`, while login signs the version defaulted to 0 | a seller whose record has no `tokenVersion` logs in and then refreshes within the day: 401 | compare against the version defaulted to 0, as login signs it | not executed | SessionRoutes.LoginThenRefresh | SessionRoutes.LoginThenRefreshCorrected |
| app/api/auth/seller/login/route.ts:89 | the refresh cookie is scoped to `/api/auth/refresh`, which is neither refresh route | a refresh request to `/api/auth/seller/refresh` or `/api/refresh` after login: the browser does not send the cookie | scope the cookie to the refresh route it serves | not executed | SessionRoutes.RefreshCookieNeverSent | SessionRoutes.RefreshCookieSentCorrected |
| app/seller/upload/page.tsx:156 | the video count check reads `videos.length` from before the selection, so it never counts videos taken earlier in the same selection | four acceptable videos selected at once while none are attached: all four are taken, against a limit of three | count the videos already taken in this selection | not executed | UploadPage.VideoSelectOverflows | UploadPage.VideoSelectCorrectedBounded |
