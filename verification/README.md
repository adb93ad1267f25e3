# ReWear page logic, modelled in Dafny

ReWear is the browser client of a peer-to-peer clothing exchange: users list
garments, browse and search other people's listings, keep favourites, and post
in a community feed. Its logic lives inside React page components. This project
takes out the parts of that logic that decide something and proves what they do:

- the Browse catalog filter, its filter chips and "Clear all filters";
- the Favorites search;
- the "List a New Item" form: photos capped at five, a duplicate-free tag
  list, the points suggested for a condition, and the submit check;
- the Community feed: new posts, likes and comments;
- the condition badge, the favourite heart, the item page's gallery and
  availability label;
- the shared item store and its `useItems` hook;
- the two route guards and the route table they wrap.

Each source file becomes one module (`Browse`, `Favorites`, `AddItem`,
`Community`, `ItemCard`, `ItemDetail`, `ItemsContext`, `App`). Three helper
modules sit beside them:

- `Text` holds the JavaScript string operations the pages call: `toLowerCase`,
  `includes` and `trim`.
- `Lists` holds subsequence and no-duplicates.
- `Wrappers` holds `Option` and `Result`.

Pure expressions, such as the `filter` predicates, the `switch` and the guards,
are functions with lemmas. Component state that handlers update step by step
is a class with one field per state variable. These are the AddItem form, the
Community feed, the ItemDetail gallery and the items provider. Each handler is
a method that changes only the fields it sets (`modifies this`f`). Its
`ensures` ties the new state to a pure function of the old one, and the lemmas
are proved about that function.

The user and the loading flag of the auth provider are inputs. An uploaded file
is an opaque string, standing for its object URL. In the modelled handlers,
toasts and `navigate` calls become outcome values. The item form's submit gives
`SubmitOutcome.Listed("/dashboard")`. The route guards give a `Redirect`
target. The post and comment submits return a `bool`.

Where the code behaves differently from what the product describes, the model follows the code:

- There is no sorting and no paged reveal. `sortBy` never feeds
  `filteredItems`, and the "Load More" button has no handler. The results area
  shows every matching listing, with "Load More" visible whenever there is at
  least one.
- The item form's submit does not insert anything into the item store.
- `handleConditionChange` looks the value up exactly. Only the lower-case
  values the select offers find a row. 'Excellent' with a capital gets the
  fallback of 20 points.
- The title check on submit is `!title`. A title made only of spaces is
  accepted.
- `handleCommentSubmit` updates the feed but not the dialog's copy of the post
  (`activePost`). The model keeps that copy unchanged, as the code does.

## Model

| member | source | states |
|---|---|---|
| Browse.SearchMatches | src/pages/Browse.tsx:134-135 | The search passes iff the term is empty or its lower-cased form occurs at some offset of the lower-cased title or the lower-cased category. |
| Browse.CategoryMatches | src/pages/Browse.tsx:136 | The category select passes iff it is 'all' or its lower-cased form occurs at some offset of the lower-cased category. It is a substring test, not equality. |
| Browse.SizeMatches | src/pages/Browse.tsx:137 | 'all' passes every listing. A size other than 'all' passes iff it equals the listing's size exactly. |
| Browse.ConditionMatches | src/pages/Browse.tsx:138 | The condition select passes iff it is 'all' or equals the listing's condition up to letter case. |
| Browse.Matches | src/pages/Browse.tsx:133-139 | The initial query (empty search, every select on 'all') passes every listing. |
| Browse.FilteredItems | src/pages/Browse.tsx:132-140 | A listing is in the result iff it is in the catalog and passes all four conjuncts: search, category, size, condition. The result is never longer than the catalog. |
| Browse.FilteredIsSubsequence | src/pages/Browse.tsx:132-140 | The result is an order-preserving subsequence of the catalog. Its multiset is contained in the catalog's, so nothing is added or repeated. |
| Browse.FilteredLength | src/pages/Browse.tsx:132-140 | The result has exactly one entry per passing listing. |
| Browse.InitialQueryKeepsAll | src/pages/Browse.tsx:134-138 | With an empty search and every select on 'all', every listing passes and the result is the catalog. |
| Browse.StrongerQueryShrinks | src/pages/Browse.tsx:132-140 | If every listing passing q2 also passes q1, then q2's result is a subsequence of q1's. |
| Browse.NarrowOneFilter | src/pages/Browse.tsx:134-138 | Setting the category, size or condition from 'all' to any value, or typing into an empty search box, gives a subsequence of the previous result. |
| Browse.FilterComposes | src/pages/Browse.tsx:132-140 | When q's predicate is the conjunction of q1's and q2's, filtering by q equals filtering q1's result by q2. |
| Browse.CategoryAndSizeIntersect | src/pages/Browse.tsx:136-137 | Category and size together select exactly what the category filter alone and then the size filter alone select. |
| Browse.MatchingPolicies | src/pages/Browse.tsx:136-138 | With all three selects set: size passes iff it equals the filter exactly (case-sensitive); condition passes iff it equals the filter up to letter case; category passes iff the lower-cased filter occurs at some offset of the lower-cased category, so a category equal up to case passes. |
| Browse.RemoveCategoryChip | src/pages/Browse.tsx:235 | The category chip's × sets the category to 'all' and leaves the search, size and condition as they were. |
| Browse.RemoveSizeChip | src/pages/Browse.tsx:246 | The size chip's × sets the size to 'all' and leaves the search, category and condition as they were. |
| Browse.RemoveConditionChip | src/pages/Browse.tsx:257 | The condition chip's × sets the condition to 'all' and leaves the search, category and size as they were. |
| Browse.ChipRemovalWidens | src/pages/Browse.tsx:231-263 | Removing any chip never hides a listing that was showing. The old result is a subsequence of the new one. |
| Browse.ClearAllFilters | src/pages/Browse.tsx:318-323 | "Clear all filters" sets the search to "" and the three selects to 'all'. |
| Browse.ClearAllShowsEverything | src/pages/Browse.tsx:318-323 | After "Clear all filters" the result is the whole catalog. |
| Browse.Results | src/pages/Browse.tsx:267-338 | The count shown is the length of the filtered list. The empty state shows iff the count is 0, and "Load More" shows iff it is greater than 0. |
| Browse.EmptyStateIffNoMatch | src/pages/Browse.tsx:308-338 | The empty state shows exactly when no listing passes. Exactly one of the empty state and "Load More" is shown. |
| Favorites.QueryMatches | src/pages/Favorites.tsx:72-73 | A favourite matches iff the lower-cased query occurs at some offset of its lower-cased title or its lower-cased category. |
| Favorites.FilteredFavorites | src/pages/Favorites.tsx:71-74 | A favourite is kept iff it is in the saved list and matches the query. The result is never longer than the list. |
| Favorites.FilteredFavoritesLength | src/pages/Favorites.tsx:71-74 | The result has exactly one entry per matching favourite. |
| Favorites.FilteredFavoritesIsSubsequence | src/pages/Favorites.tsx:71-74 | The result is an order-preserving subsequence of the saved list. |
| Favorites.EmptyQueryKeepsAll | src/pages/Favorites.tsx:72-73 | The empty query keeps every favourite. |
| Favorites.QueryIgnoresCase | src/pages/Favorites.tsx:72-73 | Two queries that differ only in ASCII letter case give the same result. |
| Favorites.View | src/pages/Favorites.tsx:89-111 | The tab count is the length of the unfiltered list. "No favorites yet" shows iff that list is empty. Otherwise the grid is the filtered list. |
| Favorites.ViewCountsIgnoreQuery | src/pages/Favorites.tsx:90-95 | The tab count and the "No favorites yet" branch are the same for every query. |
| Text.Lower | src/pages/Browse.tsx:134 | `toLowerCase` keeps the length and maps each character on its own. |
| Text.Includes | src/pages/Browse.tsx:134 | A string includes only strings no longer than itself. |
| Text.IncludesIffSliceAt | src/pages/Browse.tsx:134 | `includes` holds iff the searched text occurs as a contiguous slice at some position. |
| Text.Trim | src/pages/Community.tsx:101 | `trim()` gives the slice of its input at some offset such that everything before and after it is whitespace. The slice is empty or starts and ends with a non-whitespace character, so exactly the blank ends are removed. |
| Text.TrimEmptyIffBlank | src/pages/Community.tsx:101 | `trim()` gives "" exactly when every character is JavaScript whitespace. |
| Text.TrimIdempotent | src/pages/AddItem.tsx:60-63 | Trimming a trimmed string changes nothing. |
| AddItem.CapImages | src/pages/AddItem.tsx:51 | After an upload the images are the first min(5, old+new) of old ++ new. With fewer than 5 old images, the old ones stay a prefix. With 5 or more, they are cut to the first 5. |
| AddItem.RemoveAt | src/pages/AddItem.tsx:55-57 | Removing image i deletes exactly position i and keeps the rest in order. An index out of range changes nothing. |
| AddItem.AddTagState | src/pages/AddItem.tsx:59-67 | The trimmed input is appended and the input cleared iff it is non-empty and not yet a tag. Otherwise the tags and the input are unchanged. |
| AddItem.AddTagStateKeepsTagsWellFormed | src/pages/AddItem.tsx:59-67 | `addTag` keeps the tag list duplicate-free, with every tag non-empty and trimmed. |
| AddItem.WithoutTag | src/pages/AddItem.tsx:69-74 | After `removeTag(t)`, t is gone, every other tag is kept, and the result is a subsequence of the old list. |
| AddItem.WithoutTagIsRemoveAt | src/pages/AddItem.tsx:69-74 | On a duplicate-free list, removing the tag at position k removes exactly that position and keeps every other tag in order. |
| AddItem.WithoutTagKeepsTagsWellFormed | src/pages/AddItem.tsx:69-74 | `removeTag` keeps the tag list duplicate-free and trimmed. |
| AddItem.FindCondition | src/pages/AddItem.tsx:77 | The lookup returns the first row of the table with exactly the given value: every earlier row has another value. It returns nothing when no row has it. |
| AddItem.SuggestedPoints | src/pages/AddItem.tsx:76-83 | The points are 25, 20 and 15 for 'excellent', 'good' and 'fair', and 20 for any other value. |
| AddItem.SuggestedPointsIsCaseSensitive | src/pages/AddItem.tsx:77 | 'Excellent' with a capital finds no row and gets the fallback of 20. |
| AddItem.ListingForm.constructor | src/pages/AddItem.tsx:22-33 | The form starts with no images, no tags, empty text fields and 20 points. |
| AddItem.ListingForm.UploadImages | src/pages/AddItem.tsx:47-53 | With no file list, nothing changes. Otherwise the images become CapImages(old, new). At most 5 images are kept. |
| AddItem.ListingForm.RemoveImage | src/pages/AddItem.tsx:55-57 | The images become RemoveAt(old, index). Nothing else changes. |
| AddItem.ListingForm.SetTitle | src/pages/AddItem.tsx:172 | The title input sets only the title. |
| AddItem.ListingForm.SetCategory | src/pages/AddItem.tsx:179 | The category select sets only the category. |
| AddItem.ListingForm.SetSize | src/pages/AddItem.tsx:195 | The size select sets only the size. |
| AddItem.ListingForm.SetDescription | src/pages/AddItem.tsx:232 | The description box sets only the description. |
| AddItem.ListingForm.SetNewTag | src/pages/AddItem.tsx:278 | The tag input sets only the pending tag text. |
| AddItem.ListingForm.AddTag | src/pages/AddItem.tsx:59-67 | The tags and the input become AddTagState of the old ones. The tags stay duplicate-free. |
| AddItem.ListingForm.RemoveTag | src/pages/AddItem.tsx:69-74 | The tags become WithoutTag(old, tag). They stay duplicate-free. |
| AddItem.ListingForm.ConditionChange | src/pages/AddItem.tsx:76-83 | The condition becomes the value and the points become SuggestedPoints(value). Nothing else changes. |
| AddItem.ListingForm.Submit | src/pages/AddItem.tsx:85-104 | The submit is accepted iff title, category and condition are non-empty and there is at least one image. An accepted submit goes to /dashboard. |
| Community.Accepted | src/pages/Community.tsx:101 | A draft is accepted iff it is not empty and not whitespace only. |
| Community.NewPost | src/pages/Community.tsx:110-119 | The new post has the given id and untrimmed content, 0 likes, no comments and is not liked. It satisfies the post invariants. |
| Community.WithNewPost | src/pages/Community.tsx:110-121 | The new post goes first, with id old length + 1, 0 likes, no comments, not liked, and the untrimmed content. The old posts follow in order. |
| Community.NewPostIdIsFresh | src/pages/Community.tsx:111 | While the ids are exactly 1..n, the id n + 1 of a new post is not in use. |
| Community.WithNewPostKeepsIdsExact | src/pages/Community.tsx:110-121 | After a new post, the ids are again exactly 1..length. |
| Community.Toggled | src/pages/Community.tsx:133-138 | A like flips `liked`. Likes go up by 1 if the post was unliked and down by 1 if it was liked. No other field of the post changes. |
| Community.ToggleLike | src/pages/Community.tsx:131-142 | The posts with the given id are toggled and all other posts are kept. The length is unchanged. |
| Community.ToggleLikeTwice | src/pages/Community.tsx:136-137 | Liking twice restores the post list exactly. |
| Community.WithComment | src/pages/Community.tsx:149-160 | The post gains one comment at the end, with id equal to its previous comment count + 1 and the untrimmed text. No other field changes. |
| Community.AddComment | src/pages/Community.tsx:147-163 | Only the posts with the active post's id gain the comment. All other posts are unchanged, and so is the length. |
| Community.WithNewPostKeepsFeedWellFormed | src/pages/Community.tsx:110-121 | A new post keeps three invariants: ids exactly 1..length, likes at least 1 on a liked post and never negative, and comments numbered 1, 2, …. |
| Community.ToggleLikeKeepsFeedWellFormed | src/pages/Community.tsx:131-142 | A like keeps the same three invariants. |
| Community.AddCommentKeepsFeedWellFormed | src/pages/Community.tsx:147-163 | A comment keeps the same three invariants. |
| Community.InitialPostsWellFormed | src/pages/Community.tsx:54-98 | The two initial posts satisfy the invariants: ids {1, 2}, and comments numbered from 1. |
| Community.Feed.constructor | src/pages/Community.tsx:48-98 | The page starts with the two initial posts, the dialog closed, an empty draft, no active post and an empty comment box. |
| Community.Feed.OpenNewPost | src/pages/Community.tsx:185 | The new-post button opens the dialog. |
| Community.Feed.CloseNewPost | src/pages/Community.tsx:200 | The close button closes the dialog. |
| Community.Feed.SetNewPostContent | src/pages/Community.tsx:217 | Typing sets only the draft. |
| Community.Feed.SubmitPost | src/pages/Community.tsx:100-129 | A blank draft changes nothing. Otherwise the posts become WithNewPost(old, draft), the draft is cleared and the dialog closes. The invariants hold. |
| Community.Feed.Like | src/pages/Community.tsx:131-142 | The posts become ToggleLike(old, id). The invariants hold. |
| Community.Feed.OpenComments | src/pages/Community.tsx:173-175 | Opening the comments stores a copy of the post as the active post. |
| Community.Feed.CloseComments | src/pages/Community.tsx:231 | Closing the dialog clears the active post. |
| Community.Feed.SetNewComment | src/pages/Community.tsx:290 | Typing sets only the comment text. |
| Community.Feed.SubmitComment | src/pages/Community.tsx:144-171 | With a blank comment or no active post, nothing changes. Otherwise the posts become AddComment(old, active id, text) and the box is cleared. The active post's copy is not refreshed. |
| ItemCard.ConditionColor | src/components/ItemCard.tsx:38-45 | The badge is gray iff the lower-cased condition is none of 'excellent', 'good' and 'fair'. |
| ItemCard.ConditionColorCases | src/components/ItemCard.tsx:38-45 | The badge is green, blue or yellow iff the lower-cased condition is 'excellent', 'good' or 'fair'. It is gray iff it is none of the three, so the function is total. |
| ItemCard.ExcellentIsGreen | src/components/ItemCard.tsx:39-40 | 'Excellent' as the listings spell it maps to green. |
| ItemCard.ConditionColorIgnoresCase | src/components/ItemCard.tsx:39 | Conditions that differ only in letter case get the same badge. |
| ItemCard.ToggleFavorite | src/components/ItemCard.tsx:63-66 | The heart click flips the favourite flag. |
| ItemCard.ToggleFavoriteTwice | src/components/ItemCard.tsx:65 | Two clicks restore the flag. |
| ItemDetail.ConditionColor | src/pages/ItemDetail.tsx:76-83 | The badge is gray iff the lower-cased condition is none of 'excellent', 'good' and 'fair'. |
| ItemDetail.ConditionColorAgreesWithCard | src/pages/ItemDetail.tsx:76-83 | The item page's `getConditionColor` gives the card's badge for every string. |
| ItemDetail.UnknownConditionIsGray | src/pages/ItemDetail.tsx:81 | An unknown condition gets the gray default. |
| ItemDetail.AvailabilityLabel | src/pages/ItemDetail.tsx:152 | The badge reads 'Available' iff availability is 'available', and 'Reserved' otherwise. |
| ItemDetail.Gallery.constructor | src/pages/ItemDetail.tsx:26-27 | Over a non-empty image list, the gallery starts at index 0 with the heart off. |
| ItemDetail.Gallery.MainImage | src/pages/ItemDetail.tsx:103 | The main image is always one of the item's images, so it is never undefined. |
| ItemDetail.Gallery.IsHighlighted | src/pages/ItemDetail.tsx:123-124 | The highlighted thumbnail is in range and is the image shown as the main image. |
| ItemDetail.Gallery.SelectThumbnail | src/pages/ItemDetail.tsx:119-126 | A thumbnail click sets the index to that position, which stays in bounds. Exactly that thumbnail is highlighted. |
| ItemDetail.Gallery.ToggleFavorite | src/pages/ItemDetail.tsx:111 | The heart flips the favourite flag. |
| ItemsContext.Prepend | src/context/ItemsContext.tsx:40 | The new item is at index 0, the length grows by exactly 1, and the old items follow in order. |
| ItemsContext.PrependTwiceKeepsBoth | src/context/ItemsContext.tsx:39-41 | Nothing is deduplicated: adding the same item twice adds two copies. |
| ItemsContext.PrependShifts | src/context/ItemsContext.tsx:40 | The old item at position i moves to position i + 1. |
| ItemsContext.ItemsProvider.constructor | src/context/ItemsContext.tsx:37 | The item list starts empty. |
| ItemsContext.ItemsProvider.AddItem | src/context/ItemsContext.tsx:39-41 | The items become Prepend(old, newItem). |
| ItemsContext.UseItems | src/context/ItemsContext.tsx:50-55 | Without a provider value the hook fails with its message. With one, it returns that value. |
| App.ProtectedRoute | src/App.tsx:25-44 | The guard renders its page iff auth has loaded with a user. Its only redirect goes to /auth. |
| App.PublicRoute | src/App.tsx:46-65 | The guard renders its page iff auth has loaded without a user. Its only redirect goes to /dashboard. |
| App.PageFor | src/App.tsx:70-132 | Exactly /dashboard, /add-item, /settings, /favorites and /community land on protected pages, and exactly /auth on the public-only page. The item page is reached iff the path has the `/item/:id` shape. |
| App.Visit | src/App.tsx:70-132 | The spinner shows iff auth is loading on a guarded page. Every redirect goes to /auth or /dashboard. A page that shows is the one the route table gives for the path. A guarded page shows only in the auth state its guard admits: a protected page only once loaded with a user, /auth only once loaded without one. |
| App.LoadingShowsSpinner | src/App.tsx:28-37 | While loading, both guards show the spinner, whatever the user. |
| App.GuardOutcomes | src/App.tsx:25-65 | ProtectedRoute renders its children iff not loading with a user, and redirects to /auth iff not loading without one. PublicRoute renders iff not loading without a user, and redirects to /dashboard iff not loading with one. |
| App.ExactlyOneGuardRenders | src/App.tsx:39-64 | When not loading, exactly one of the two guards renders its children. |
| App.RedirectsSettle | src/App.tsx:78-127 | A guard's redirect, followed once in the same auth state, shows the target page, so the guards never loop. |
| App.UnguardedAlwaysShows | src/App.tsx:72-76 | The routes without a guard show their page in every auth state. |

## Left out

- JSX markup, styling classes, dialogs, tabs and view-mode toggles: these render and decide nothing.
- Toasts and `navigate` calls outside the modelled handlers (form submit, post and comment submit, route guards) are not modelled. They show a message or change the page and decide nothing the model tracks.
- Buttons that only navigate are not modelled. These are the card click-throughs to `/item/:id` on Browse and Favorites, the Favorites "Browse Items" buttons and "View Results" links, and the item form's Cancel button.
- The item page's back button (`navigate(-1)`), swap button (toast and closing its dialog) and redeem button (toast) are not modelled.
- Sorting and "Load More" paging do not exist in the code. `sortBy` is never read, and the button has no handler.
- The auth provider, the profile fetch and sign-out: external network services. The user and the loading flag are inputs.
- `URL.createObjectURL`: each upload is an opaque string.
- Uploader ratings: floating-point values that the code never compares.
- Static pages and mock data other than the Community feed's initial posts (landing, about, how-it-works, footer, dashboard). The catalog and the favourites list are parameters of the filters.
- `Text.Lower`: folds ASCII letters only. Full Unicode `toLowerCase` is not modelled.
- `App.PageFor`: matches paths exactly and by one `/item/` segment. The router's case-insensitive matching and trailing-slash handling are not modelled.
