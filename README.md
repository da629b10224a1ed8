# Home-screen poster resolver of the television client

This project models how the television app's home screen picks the artwork
for each tile. `ItemPoster` takes a media item and a tile direction
(horizontal or vertical). It decides two things: whose artwork to show (the
item's own id or its series' id) and which image category to ask for
(primary or backdrop). It then builds the URL `{baseUrl}/items/{id}/Images/{type}`
that it hands to the image loader. Library rows and section rows use
horizontal tiles. View rows use vertical ones.

Files:

- `Wrappers.dfy` holds `Option` (Kotlin's nullable values, with the Elvis
  operator as `GetOr`) and `Result` (a value, or the exception a `!!` throws).
- `HomeScreen.dfy` holds everything else:
  - the item data model;
  - the two `isNotNullOrEmpty` extensions;
  - the poster choice, in two forms: `SelectPosterImage` is a method with
    the source's `var itemId` / `var imageType` reassignments, and `PosterImage`
    is a first-match decision table that serves as its reference definition;
  - the image URL and a parser that reads the URL back;
  - the row-to-direction dispatch.

Behaviour modelled from the code:

- `ItemPoster` has no error handling, so the `item.seriesId!!` at line 261
  (an untagged episode on a horizontal tile with no series id) makes it
  throw; the model returns `Failure(NullPointerException)` there.
- The `imageTags!!` in the non-movie branch cannot throw. The method reads
  `imageTags.value` there, and the verifier proves the value is present
  because of the enclosing guard.
- An empty or absent `imageTags` is taken to mean offline (downloaded)
  metadata.
- In the vertical condition, `&&` binds tighter than `||`. So an episode uses
  its series' artwork even when the episode has image tags. A season does so
  only when it has none.
- Ids are the text of UUIDs, modelled as strings. The URL round trip needs
  only that an id contains no `/`.
- The text of an image category in the URL (`Primary`, `Backdrop`, …) comes
  from the server SDK's enum. That SDK is not part of this model. The
  server's category names are assumed.

## Model

| member | source | states |
|---|---|---|
| `HomeScreen.IsNullOrEmpty` | app/tv/src/main/java/dev/jdtech/jellyfin/ui/HomeScreen.kt:229 | Kotlin's `isNullOrEmpty` on a collection, as called at 229: true exactly when it is null or the empty list |
| `HomeScreen.IsNullOrEmptyMap` | app/tv/src/main/java/dev/jdtech/jellyfin/ui/HomeScreen.kt:233 | Kotlin's `isNullOrEmpty` on a map, as called at 233 and 267: true exactly when it is null or the empty map |
| `HomeScreen.IsNotNullOrEmpty` | app/tv/src/main/java/dev/jdtech/jellyfin/ui/HomeScreen.kt:228-230 | True exactly when the collection is non-null and holds an element; defined as the negation of `isNullOrEmpty` |
| `HomeScreen.IsNotNullOrEmptyMap` | app/tv/src/main/java/dev/jdtech/jellyfin/ui/HomeScreen.kt:232-234 | True exactly when the map is non-null and has a key; defined as the negation of `isNullOrEmpty` |
| `HomeScreen.VerticalTarget` | app/tv/src/main/java/dev/jdtech/jellyfin/ui/HomeScreen.kt:266-268 | The vertical id expression: always the item's own id or its series id, and the series id only for an episode or a season |
| `HomeScreen.PosterImage` | app/tv/src/main/java/dev/jdtech/jellyfin/ui/HomeScreen.kt:241-269 | Fails exactly for an untagged episode on a horizontal tile without a series id (the `!!` at 261); otherwise the id is the item's own or its series', only episodes and seasons take the series', and a non-primary category is only ever a backdrop on a horizontal tile |
| `HomeScreen.SelectPosterImage` | app/tv/src/main/java/dev/jdtech/jellyfin/ui/HomeScreen.kt:241-269 | The step-by-step reassignment of `itemId` and `imageType` yields exactly the decision table `PosterImage`, including the crash case; the `imageTags!!` at 254 is proved never to meet null |
| `HomeScreen.VerticalIsPrimary` | app/tv/src/main/java/dev/jdtech/jellyfin/ui/HomeScreen.kt:265-269 | A vertical tile never fails and always asks for the primary image (the type starts primary and that branch never changes it) |
| `HomeScreen.VerticalTargetChoice` | app/tv/src/main/java/dev/jdtech/jellyfin/ui/HomeScreen.kt:266-268 | Vertical id: the series id for any episode (tagged or not) and for an untagged season when there is one; the own id when there is no series id, for a tagged season and for every other kind |
| `HomeScreen.HorizontalMovieWithBackdrops` | app/tv/src/main/java/dev/jdtech/jellyfin/ui/HomeScreen.kt:246-251 | Tagged movie with backdrop tags on a horizontal tile: its own id, backdrop |
| `HomeScreen.HorizontalMovieWithoutBackdrops` | app/tv/src/main/java/dev/jdtech/jellyfin/ui/HomeScreen.kt:242-252 | Tagged movie with null or empty backdrop tags: its own id, primary, whether or not primary is among its image tags |
| `HomeScreen.HorizontalTaggedNonMovie` | app/tv/src/main/java/dev/jdtech/jellyfin/ui/HomeScreen.kt:246-257 | Tagged non-movie: image tags are non-null (the `!!` is safe), own id, and backdrop exactly when primary is not a key of the image tags |
| `HomeScreen.HorizontalUntagged` | app/tv/src/main/java/dev/jdtech/jellyfin/ui/HomeScreen.kt:259-264 | Untagged episode: series id and backdrop, or the null-pointer failure without a series id; any other untagged kind: own id, primary |
| `HomeScreen.ImageTypeName` | app/tv/src/main/java/dev/jdtech/jellyfin/ui/HomeScreen.kt:273 | How `$imageType` renders in the URL: a non-empty name without `/`; the names themselves (`Primary`, `Backdrop`, …) come from the server SDK and are assumed |
| `HomeScreen.ImageUrl` | app/tv/src/main/java/dev/jdtech/jellyfin/ui/HomeScreen.kt:273 | The URL template: it starts with the base URL, `/items/` and the id, ends with `/Images/` and the type's name, and has exactly their combined length |
| `HomeScreen.SplitImageUrlComplete` | app/tv/src/main/java/dev/jdtech/jellyfin/ui/HomeScreen.kt:273 | A URL built from the template splits back into the id and the type's text when the id holds no `/` |
| `HomeScreen.SplitImageUrlSound` | app/tv/src/main/java/dev/jdtech/jellyfin/ui/HomeScreen.kt:273 | Anything that splits into an id and a text is exactly base URL, `/items/`, id, `/Images/`, text, with no `/` in the id |
| `HomeScreen.ParseImageUrlComplete` | app/tv/src/main/java/dev/jdtech/jellyfin/ui/HomeScreen.kt:273 | The image URL of an id and a type reads back as that id and type |
| `HomeScreen.ParseImageUrlSound` | app/tv/src/main/java/dev/jdtech/jellyfin/ui/HomeScreen.kt:273 | Anything that reads back as an id and a type is exactly base URL, `/items/`, id, `/Images/`, type |
| `HomeScreen.ParseImageUrlExact` | app/tv/src/main/java/dev/jdtech/jellyfin/ui/HomeScreen.kt:273 | Both directions: a URL reads back as (id, type) if and only if it is that pair's image URL and the id holds no `/` |
| `HomeScreen.ImageUrlInjective` | app/tv/src/main/java/dev/jdtech/jellyfin/ui/HomeScreen.kt:273 | Two image URLs on one base URL are equal exactly when their ids and types are: only the id and the type vary |
| `HomeScreen.PosterUrl` | app/tv/src/main/java/dev/jdtech/jellyfin/ui/HomeScreen.kt:241-273 | The choice followed by the URL: a URL exactly when the choice succeeds, otherwise the null-pointer failure; the URL starts with the base URL, `/items/` and the chosen id, and a vertical tile's ends with `/Images/Primary` |
| `HomeScreen.ItemPoster` | app/tv/src/main/java/dev/jdtech/jellyfin/ui/HomeScreen.kt:241-273 | The composable's choice followed by the URL template equals `PosterUrl`: the URL of the `PosterImage` choice, or its failure |
| `HomeScreen.PosterUrlCarriesChoice` | app/tv/src/main/java/dev/jdtech/jellyfin/ui/HomeScreen.kt:272-273 | A tile's URL exists exactly when the choice succeeds, and it reads back as the chosen id and type |
| `HomeScreen.RowItems` | app/tv/src/main/java/dev/jdtech/jellyfin/ui/HomeScreen.kt:177-178 | The tiles of a row; a view row with a null item list has none (`orEmpty()`), otherwise exactly the view's items (library and section rows use their lists, 89 and 121) |
| `HomeScreen.RowDirection` | app/tv/src/main/java/dev/jdtech/jellyfin/ui/HomeScreen.kt:77-199 | A row uses vertical tiles exactly when it is a view row (187); library and section rows use horizontal ones (98, 131) |
| `HomeScreen.RowPosterUrls` | app/tv/src/main/java/dev/jdtech/jellyfin/ui/HomeScreen.kt:89-188 | One poster URL per tile of the row, a view's null item list giving no tiles (177-178) |
| `HomeScreen.RowTileCarriesChoice` | app/tv/src/main/java/dev/jdtech/jellyfin/ui/HomeScreen.kt:89-188 | The i-th tile of any row has a URL exactly when `PosterImage` succeeds for its item in the row's direction, and that URL reads back as the chosen id and type |
| `HomeScreen.ViewRowPosters` | app/tv/src/main/java/dev/jdtech/jellyfin/ui/HomeScreen.kt:166-198 | No tile of a view row fails, and each URL ends in `/Images/Primary` |
| `HomeScreen.HorizontalRowFailures` | app/tv/src/main/java/dev/jdtech/jellyfin/ui/HomeScreen.kt:78-165 | A tile of a library or section row fails exactly when its item is an untagged episode without a series id |

## Left out

- Compose layout and styling are not modelled (columns, rows, boxes, spacers, paddings, text styles, the header banner). They are declarative UI with no behaviour to state.
- Which tiles a lazy row actually composes is not modelled. `RowPosterUrls` gives the URL for every tile, and a failure stays with its own tile.
- The view model's `loadData` call and `uiState` stream (lines 57-63) are not modelled. They are asynchronous plumbing whose logic is not in this file.
- The loading and error branches (lines 65-67, 204-206) are not modelled. They only display text.
- `JellyfinApi.getInstance` and the client's base URL (lines 61, 273) belong to an external singleton. The base URL is a string parameter. It is the text Kotlin renders for it, which is `null` for a null one.
- `AsyncImage` fetching, decoding and caching (lines 272-283) are not modelled. They belong to an external image library.
- The floating-point presentation values are not modelled: the progress-bar width (line 139) and the aspect ratios (line 278).
- `BaseItemKind` has many kinds. They are reduced to Movie, Episode, Season, Series and Other, because the poster logic only tests for Movie, Episode and Season.
