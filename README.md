# Admin panel core, modelled in Dafny

This project models the logic of an anime-site admin panel. The panel is a
React single-page application, and its state lives in zustand stores. The
model covers:

- **The stores that keep local state.** The forum, periods, comment,
  dashboard and season stores are Dafny classes with the same fields.
  Their actions are methods that update those fields step by step around
  one REST call. The call's outcome is a parameter, an `ApiResult` that is
  either a success with a value or a failure with an optional message.
- **The pages and modals that compute something.** This covers the comment
  page and its filter drawer, the anime list with its add/edit modal and
  its season modal, the genre form and genre list, the topic modal and
  forum list, the character list, and the analytics, activity and category
  cards of the dashboard.
  - Pure expressions (filters, payload builders, slugs, decoders) are
    functions, and lemmas are proved about them.
  - Components whose handlers update state are classes. Each handler is a
    method that states the component's whole new state and the requests it
    sends.
  - When a page only asks a fetch-only store to refetch, the page's effect
    is the list of requests it returns.
- **The shared pieces.** `Js` models loosely typed JavaScript values: the
  values forms hold and the backend returns. It covers truthiness,
  `Number(v)` (with NaN as `None`), `String(n)` and `??`. `Text`, `Lists` and
  `Slug` hold the string and list operations the code uses. These are
  ASCII lower-casing and trimming, `includes`, `split`/`join`, an
  order-preserving `filter`, dedupe, a page slice, and the two slug
  functions of the code base.

Some facts about the code shape the model:

- **Store actions catch their own errors.** The exceptions are the
  episode store's `addEpisode` and the periods store's `getPeriodById`,
  which rethrow. Because of this, the pages' `try`/`catch` blocks around
  store calls never catch anything. The modals they guard always close,
  and `onSuccess` callbacks always run.
- **Some frames of the JavaScript are dead code.** These are:
  - the featured-override rollback in the anime list, since
    `addToFeatured` and `removeFromFeatured` never throw to the page;
  - the `.catch` after `fetchEpisodes` in the season modal.
  
  The model still takes the rollback as a parameter (`thrown`), so it states
  what the code would do if it ran.
- **An unknown period in the analytics chart is read three different ways.**
  The axis uses the daily points, the series use the monthly points, and
  the summary is all zeros.
- **Topic ids are numbers, but the forum store compares them as strings.**
  It matches each topic with `t.id.toString() === id`. The forum page
  passes `topicId.toString()`, but the topic modal passes the number
  itself (see Findings).

## Model

| member | source | states |
|---|---|---|
| ForumStore.Flip | app/common/store/forum/forum.store.ts:289-291 | negates exactly the chosen moderation flag of a topic; every other flag and field is kept |
| ForumStore.ReplaceForum | app/common/store/forum/forum.store.ts:104-106 | same length; each forum whose id equals `id` becomes the returned forum, every other forum is kept in place |
| ForumStore.DropForum | app/common/store/forum/forum.store.ts:122 | no remaining forum has the id; every other forum remains; the result is an order-preserving sublist |
| ForumStore.ReplaceTopic | app/common/store/forum/forum.store.ts:251-253 | same length; every topic whose decimal id equals `id` is replaced, every other topic kept |
| ForumStore.DropTopic | app/common/store/forum/forum.store.ts:269 | no remaining topic has the decimal id; every other topic remains, in order |
| ForumStore.ToggleFlag | app/common/store/forum/forum.store.ts:287-291 | same length; the flag is negated on each topic whose decimal id equals `id`, others unchanged |
| ForumStore.ToggleFlagTwice | app/common/store/forum/forum.store.ts:287-291 | toggling the same flag of the same id twice restores the list |
| ForumStore.FlipTwice | app/common/store/forum/forum.store.ts:289-291 | flipping a flag twice restores the topic |
| ForumStore.ToggleFlagKeepsOtherFlags | app/common/store/forum/forum.store.ts:313-317 | toggling one flag leaves the other two flags of every topic as they were |
| ForumStore.Store.constructor | app/common/store/forum/forum.store.ts:62-66 | empty lists, not loading, no error, no topic under moderation |
| ForumStore.Store.BeginRequest | app/common/store/forum/forum.store.ts:71 | loading set, error cleared, lists and moderation set kept |
| ForumStore.Store.EndRequest | app/common/store/forum/forum.store.ts:91-96 | loading cleared; the error becomes the message on failure and is kept on success |
| ForumStore.Store.FetchForums | app/common/store/forum/forum.store.ts:70-81 | success stores the returned forums; failure keeps them and sets the fetch error; loading ends false |
| ForumStore.Store.AddForum | app/common/store/forum/forum.store.ts:83-97 | success appends the returned forum at the end; failure keeps the list and sets its error; loading ends false |
| ForumStore.Store.EditForum | app/common/store/forum/forum.store.ts:99-115 | success replaces the forums with that id; failure keeps the list and sets its error |
| ForumStore.Store.RemoveForum | app/common/store/forum/forum.store.ts:117-131 | success drops the forums with that id; failure keeps the list and sets its error |
| ForumStore.Store.CreateCategory | app/common/store/forum/forum.store.ts:134-148 | only the loading flag and the error change |
| ForumStore.Store.UpdateCategory | app/common/store/forum/forum.store.ts:150-164 | only the loading flag and the error change |
| ForumStore.Store.RemoveCategory | app/common/store/forum/forum.store.ts:166-178 | only the loading flag and the error change |
| ForumStore.Store.DeletePost | app/common/store/forum/forum.store.ts:360-371 | only the loading flag and the error change |
| ForumStore.Store.GetTopic | app/common/store/forum/forum.store.ts:230-241 | the fetched topic is discarded: only loading and the error change |
| ForumStore.Store.GetAllTopics | app/common/store/forum/forum.store.ts:180-193 | success stores `response.topics`, or none when absent; failure keeps the topics and sets its error |
| ForumStore.Store.GetTopicsByForum | app/common/store/forum/forum.store.ts:195-208 | success stores `response.topics`, or `[]` when absent; failure keeps the topics and sets its error |
| ForumStore.Store.CreateTopic | app/common/store/forum/forum.store.ts:210-228 | success appends the returned topic; failure keeps the topics and sets its error |
| ForumStore.ReplaceTopicLoose | app/common/store/forum/forum.store.ts:251-253 | the update's replacement with an id of any JavaScript type: same length, and a topic is replaced exactly when the id is the string that the topic's id prints as |
| ForumStore.Store.UpdateTopic | app/common/store/forum/forum.store.ts:243-262 | success replaces the topics whose printed id equals the given value (none for a number); failure keeps them and sets its error; loading ends |
| ForumStore.Store.DeleteTopic | app/common/store/forum/forum.store.ts:264-279 | success drops the topics with that decimal id; failure keeps them and sets its error |
| ForumStore.Store.BeginModeration | app/common/store/forum/forum.store.ts:282-285 | the id joins the moderation set and the error is cleared; loading untouched |
| ForumStore.Store.EndModeration | app/common/store/forum/forum.store.ts:286-304 | the id leaves the moderation set; success toggles the flag, failure keeps the topics and sets the flag's error |
| ForumStore.Store.Moderate | app/common/store/forum/forum.store.ts:281-305 | afterwards the id is not under moderation in either outcome; success toggles the flag; loading and forums untouched |
| ForumStore.Store.PinTopic | app/common/store/forum/forum.store.ts:281-305 | success flips `isPinned` of the topics with that id; failure sets "Konu sabitleme hatası"; the id leaves the moderation set |
| ForumStore.Store.LockTopic | app/common/store/forum/forum.store.ts:307-331 | success flips `isLocked`; failure sets "Konu kilitleme hatası"; the id leaves the moderation set |
| ForumStore.Store.StickyTopic | app/common/store/forum/forum.store.ts:333-357 | success flips `isSticky`; failure sets "Konu yapışkan yapma hatası"; the id leaves the moderation set |
| ForumStore.Store.SetLoading | app/common/store/forum/forum.store.ts:373 | only `loading` changes |
| ForumStore.Store.SetError | app/common/store/forum/forum.store.ts:374 | only `error` changes |
| ForumStore.PinTwice | app/common/store/forum/forum.store.ts:281-305 | two successful pins of one id give back the original topics |
| PeriodsStore.ReplacePeriod | app/common/store/periods/periods.store.ts:84-86 | same length; each period with the numeric id becomes the updated one, the others stay in place |
| PeriodsStore.DropPeriod | app/common/store/periods/periods.store.ts:97-99 | no remaining period has the id; every other period remains, in order |
| PeriodsStore.DropAbsentPeriod | app/common/store/periods/periods.store.ts:97-99 | deleting an id no period has leaves the list as it was |
| PeriodsStore.ReplaceAbsentPeriod | app/common/store/periods/periods.store.ts:84-86 | updating an id no period has leaves the list as it was |
| PeriodsStore.Store.constructor | app/common/store/periods/periods.store.ts:40-43 | no periods, not loading, no error |
| PeriodsStore.Store.Reset | app/common/store/periods/periods.store.ts:48 | back to the initial state |
| PeriodsStore.Store.SetLoading | app/common/store/periods/periods.store.ts:47 | only `loading` changes |
| PeriodsStore.Store.BeginRequest | app/common/store/periods/periods.store.ts:50 | loading set, error cleared, periods kept |
| PeriodsStore.Store.Fail | app/common/store/periods/periods.store.ts:54-56 | loading cleared, the error is the message or "Bir hata oluştu", periods kept |
| PeriodsStore.Store.FetchAllPeriods | app/common/store/periods/periods.store.ts:49-57 | success stores the returned periods; failure keeps them and records the error |
| PeriodsStore.Store.GetPeriodById | app/common/store/periods/periods.store.ts:58-68 | requests the decimal id; the period, or the error, is handed back to the caller; the list never changes |
| PeriodsStore.Store.AddPeriod | app/common/store/periods/periods.store.ts:69-78 | success appends the new period; failure keeps the list and records the error |
| PeriodsStore.Store.UpdatePeriod | app/common/store/periods/periods.store.ts:79-91 | success replaces the periods with that id; failure keeps the list |
| PeriodsStore.Store.DeletePeriod | app/common/store/periods/periods.store.ts:92-104 | success drops the periods with that id; failure keeps the list |
| PeriodsStore.Store.AddAnimeToPeriod | app/common/store/periods/periods.store.ts:105-122 | sends the decimal period id with the episode count defaulting to 0, then on success refetches all periods; failure skips the refetch and records the error |
| PeriodsStore.Store.RemoveAnimeFromPeriod | app/common/store/periods/periods.store.ts:123-132 | sends the removal, then on success refetches all periods; failure skips the refetch |
| CommentStore.StatusName | app/common/store/comment/comment.types.ts:4 | every status has a non-empty wire name, so choosing it in the status filter makes that filter active |
| CommentStore.StatusNameInjective | app/common/store/comment/comment.types.ts:4 | two statuses have the same wire name exactly when they are equal |
| CommentStore.Decode | app/common/store/comment/comment.store.ts:69-85 | a response with a `comments` key gives its comments (or none) and its pagination (or the initial one); a bare list gives that list and keeps the pagination; anything else gives no comments and keeps the pagination |
| CommentStore.DecodeEncode | app/common/store/comment/comment.store.ts:69-78 | decoding the paginated response for a state gives back that state |
| CommentStore.DecodeKeepsPagination | app/common/store/comment/comment.store.ts:79-85 | a response without a `comments` key never changes the pagination |
| CommentStore.Store.constructor | app/common/store/comment/comment.store.ts:41-51 | no comments, not loading, no error, page 1 of size 5 with no total |
| CommentStore.Store.Reset | app/common/store/comment/comment.store.ts:63 | back to the initial state |
| CommentStore.Store.SetLoading | app/common/store/comment/comment.store.ts:56 | only `loading` changes |
| CommentStore.Store.SetPagination | app/common/store/comment/comment.store.ts:57-62 | only the pagination changes |
| CommentStore.Store.Load | app/common/store/comment/comment.store.ts:64-92 | success stores the decoded comments and pagination and clears the error; failure keeps them and records the message or the fallback |
| CommentStore.Store.FetchComments | app/common/store/comment/comment.store.ts:64-92 | one list request; the state becomes the decoded response, or the error "Yorumlar yüklenemedi" |
| CommentStore.Store.SearchComments | app/common/store/comment/comment.store.ts:93-124 | one search request with the query; the state becomes the decoded response, or the error "Yorumlar getirilemedi" |
| CommentStore.Store.Mutate | app/common/store/comment/comment.store.ts:125-177 | the mutation request with the decimal id, then on success a refetch whose outcome decides the state; a failed mutation skips the refetch and records its own message |
| DashboardStore.DefaultStats | app/common/store/dashboard/dashboard.store.ts:42-52 | an object with the four required keys, every counter 0 and `lastUpdated` the current time |
| DashboardStore.Settle | app/common/store/dashboard/dashboard.store.ts:19-85 | stored stats always have the four required keys; a complete object is stored as is with no report; an incomplete object gives the default stats and a report; a non-object or empty response gives `null` and a report; a failed request gives the default stats and reports the error |
| DashboardStore.SettleReports | app/common/store/dashboard/dashboard.store.ts:36-85 | the error callback is called exactly when the response is not a complete stats object |
| DashboardStore.Store.constructor | app/common/store/dashboard/dashboard.store.ts:6-9 | not loading and no stats |
| DashboardStore.Store.SetLoading | app/common/store/dashboard/dashboard.store.ts:14 | only `loading` changes |
| DashboardStore.Store.Reset | app/common/store/dashboard/dashboard.store.ts:15 | back to the initial state |
| DashboardStore.Store.GetStats | app/common/store/dashboard/dashboard.store.ts:16-86 | the stats become the settled value, loading ends false, and the error callback, when given, receives the settled report and nothing else |
| SeasonStore.SeasonSlug | app/common/store/season/season.store.ts:84 | a non-empty given slug is kept; otherwise the lower-cased name with whitespace runs turned into hyphens, which has no whitespace and no capitals; no name, no slug |
| SeasonStore.SeasonSlugStable | app/common/store/season/season.store.ts:84 | a derived slug, fed back as a name, derives itself again |
| SeasonStore.Body | app/common/store/season/season.store.ts:81-88 | name, number and release year pass through; the slug takes its default; a falsy episode count becomes 0 |
| SeasonStore.Store.constructor | app/common/store/season/season.store.ts:26-30 | no seasons, not loading, no error |
| SeasonStore.Store.Reset | app/common/store/season/season.store.ts:36 | back to the initial state |
| SeasonStore.Store.SetLoading | app/common/store/season/season.store.ts:35 | only `loading` changes |
| SeasonStore.Store.FetchSeasons | app/common/store/season/season.store.ts:37-45 | one request for the anime; success stores `seasons` or `[]`; failure keeps the list and records the error |
| SeasonStore.Store.FetchAllSeasons | app/common/store/season/season.store.ts:46-76 | stores the two fixed seasons and sends no request |
| SeasonStore.Store.AfterMutation | app/common/store/season/season.store.ts:90-94 | after a successful mutation the anime's seasons are refetched and decide the state; a failed mutation skips the refetch and records its message |
| SeasonStore.Store.AddSeason | app/common/store/season/season.store.ts:77-95 | sends the body for the anime, then refetches that anime's seasons on success |
| SeasonStore.Store.UpdateSeason | app/common/store/season/season.store.ts:96-112 | sends the body with the season and anime ids, then refetches that anime's seasons on success |
| SeasonStore.Store.DeleteSeason | app/common/store/season/season.store.ts:113-122 | sends the deletion, then refetches that anime's seasons on success |
| CommentList.Filtered | app/pages/Comments/CommentList.tsx:97-149 | an order-preserving sublist holding exactly the comments that pass every active filter |
| CommentList.Visible | app/pages/Comments/CommentList.tsx:94-155 | every row passes the filters; a page holds at most 8 rows, and they are the filtered comments from position (page-1)·8 on, in order |
| CommentList.VisibleComplete | app/pages/Comments/CommentList.tsx:94-155 | every comment that passes the filters appears on some table page |
| CommentList.UnfilteredPages | app/pages/Comments/CommentList.tsx:94-155 | with every filter cleared the table shows slice (page-1)·8 of the loaded comments |
| CommentList.SeasonFilter | app/pages/Comments/CommentList.tsx:176-182 | the anime filter takes the new id and both the season and episode filters are cleared; the other filters are kept |
| CommentList.StatusCountsSum | app/pages/Comments/CommentList.tsx:222-234 | the four status counts add up to the number of comments |
| CommentList.CountStatusAppend | app/pages/Comments/CommentList.tsx:223-234 | one more comment raises the count of its own status by one and no other |
| CommentList.Stats | app/pages/Comments/CommentList.tsx:220-246 | the total is the number of comments, the four status counts add up to it, and the growth, rating and active-user counters are 0 |
| CommentList.PageCountBound | app/pages/Comments/CommentList.tsx:667-673 | the pager offers page p exactly when (p-1)·8 is below its total |
| CommentList.PagerTotalAsWritten | app/pages/Comments/CommentList.tsx:670 | the pager is told the number of all loaded comments, whatever the filters |
| CommentList.PagerAsWrittenOffersEmptyPages | app/pages/Comments/CommentList.tsx:667-673 | with nine loaded pending comments and the status filter on APPROVED, the pager offers page 2 while the table has no rows at all |
| CommentList.PagerTotal | app/pages/Comments/CommentList.tsx:94-155 | the pager total taken as the number of comments passing the filters: at most the loaded number, and equal to it without filters |
| CommentList.PagerOffersNonEmptyPages | app/pages/Comments/CommentList.tsx:94-155 | with that total a page has rows exactly when the pager offers it |
| CommentList.CompositeKeyRoundTrip | app/pages/Comments/CommentList.tsx:347 | splitting the option value of season a and episode b at the hyphen gives back a and b |
| CommentList.TruthyId | app/pages/Comments/CommentList.tsx:357-362 | a parsed id is kept exactly when it is a non-zero number |
| CommentList.SelectedIds | app/pages/Comments/CommentList.tsx:342-348 | no composite value gives no ids; any id given is non-zero |
| CommentList.SelectedIdsOfOption | app/pages/Comments/CommentList.tsx:342-362 | the option value of positive ids a and b selects exactly a and b |
| CommentList.AddPayload | app/pages/Comments/CommentList.tsx:350-362 | the anime id is `Number` of the select value, content is kept, `isSpoiler` is false, and the season and episode ids are present only when truthy |
| CommentList.IdOrNull | app/pages/Comments/CommentList.tsx:401-410 | an id of the edit body is never left out: a truthy id is set, anything else is `null` |
| CommentList.EditPayload | app/pages/Comments/CommentList.tsx:395-410 | content and status are kept; both ids are always sent, as `null` without a composite value |
| CommentList.PayloadsOfOption | app/pages/Comments/CommentList.tsx:337-410 | choosing the option of positive ids a and b sends a and b in both the add and the edit body |
| CommentList.ModerationMutation | app/pages/Comments/CommentList.tsx:267-283 | approve and reject call their own endpoints; hide is an update whose only field is status HIDDEN |
| CommentList.SeasonOptions | app/pages/Comments/CommentList.tsx:203-210 | one option per episode of the season, in episode order; a season without an episode list gives none |
| CommentList.EpisodeOptionsCount | app/pages/Comments/CommentList.tsx:200-213 | there are as many options as episodes over all seasons |
| CommentList.EpisodeOptionsComplete | app/pages/Comments/CommentList.tsx:202-211 | every episode of every season has its option |
| CommentList.EpisodeOptionsSound | app/pages/Comments/CommentList.tsx:202-211 | every option is the option of one episode of one season |
| CommentList.EpisodeOptionKey | app/pages/Comments/CommentList.tsx:206 | with non-negative ids an option's value parses back into its season and episode ids |
| CommentList.PushSeasonOptions | app/pages/Comments/CommentList.tsx:204-209 | the loop appends exactly the season's options to those built so far |
| CommentList.BuildEpisodeOptions | app/pages/Comments/CommentList.tsx:200-211 | the nested loops build exactly the flattened options of all seasons, in order |
| CommentList.LookupQuery | app/pages/Comments/CommentList.tsx:184-192 | no lookup without an anime id; otherwise the label of the first option with that value, and none when no option has it |
| CommentList.FoundSeasons | app/pages/Comments/CommentList.tsx:193-198 | the seasons of a result whose id prints as the anime id; none when no result has it |
| CommentList.LookedUpOptions | app/pages/Comments/CommentList.tsx:184-216 | options are produced only for an anime id with a known label and a lookup that succeeded |
| CommentList.Page.constructor | app/pages/Comments/CommentList.tsx:81-91 | every filter cleared, page 1, no options, no modal open |
| CommentList.Page.SetPage | app/pages/Comments/CommentList.tsx:81 | only the table page changes |
| CommentList.Page.SetAnimeOptions | app/pages/Comments/CommentList.tsx:458-530 | only the anime options change |
| CommentList.Page.HandleFilterChange | app/pages/Comments/CommentList.tsx:158-163 | one filter takes the value; the page number is not reset |
| CommentList.Page.HandleFilterReset | app/pages/Comments/CommentList.tsx:165-174 | every filter is cleared; the page number stays |
| CommentList.Page.HandleSeasonFilterChange | app/pages/Comments/CommentList.tsx:176-217 | the filters become the season-filter change; the episode options are replaced only by a successful lookup |
| CommentList.Page.HandleSeasonChange | app/pages/Comments/CommentList.tsx:532-577 | the form's episode field is cleared, and the options become the lookup's options or none |
| CommentList.Page.OpenAdd | app/pages/Comments/CommentList.tsx:327-330 | the add modal opens with the season/episode field cleared |
| CommentList.Page.OpenEdit | app/pages/Comments/CommentList.tsx:332-335 | the edit modal opens for the comment |
| CommentList.Page.OnAddSubmit | app/pages/Comments/CommentList.tsx:337-378 | a form that fails validation sends nothing; otherwise the add body is sent, the modal closes and the form resets |
| CommentList.Page.OnEditSubmit | app/pages/Comments/CommentList.tsx:380-418 | nothing without a comment being edited or a valid form; otherwise the update with the edit body is sent and the modal closes |
| CommentFilters.EpisodeFilter | app/pages/Comments/components/CommentFilters.tsx:61-70 | a cleared choice clears both filters; otherwise the season filter is always set, and a value without a hyphen leaves the episode filter unset |
| CommentFilters.DisplayValue | app/pages/Comments/components/CommentFilters.tsx:165-168 | the select shows a value exactly when both filters are set, and then it is `season-episode` |
| CommentFilters.EpisodeChoiceRoundTrip | app/pages/Comments/components/CommentFilters.tsx:61-70 | choosing the option of season a and episode b sets the filters to their decimal forms, and the select then shows that same option |
| CommentFilters.DisplayRoundTrip | app/pages/Comments/components/CommentFilters.tsx:165-170 | filters holding canonical ids display the value that, chosen again, gives the same filters |
| CommentFilters.EpisodeChoiceSelects | app/pages/Comments/components/CommentFilters.tsx:61-70 | after choosing an episode option, every comment the table keeps belongs to that season and that episode |
| CommentFilters.RangeChange | app/pages/Comments/components/CommentFilters.tsx:207-215 | a range is set exactly when both dates are chosen, and it holds them |
| CommentFilters.HandleSeasonFilterChange | app/pages/Comments/components/CommentFilters.tsx:56-59 | the page's season handler runs, then the anime filter is set again; the filters end as the page's season-filter change gives them |
| CommentFilters.HandleEpisodeFilterChange | app/pages/Comments/components/CommentFilters.tsx:61-70 | the filters end as the episode choice gives them; everything else is kept |
| CommentFilters.HandleRangeChange | app/pages/Comments/components/CommentFilters.tsx:207-215 | only the date-range filter changes |
| CommentFilters.HandleFilterReset | app/pages/Comments/components/CommentFilters.tsx:80-83 | every filter is cleared; the options are kept |
| Slug.SlugifyIsSlug | app/pages/Animes/AnimeList.tsx:42-50 | the result is a slug: only lowercase letters, digits and `-`, with no hyphen at either end and never two in a row |
| Slug.SlugifyKeepsAlnum | app/pages/Category/components/GenreForm/GenreForm.tsx:9-17 | the letters and digits of the slug are exactly those of the lowercased text, in order |
| Slug.SlugifyWithoutAlnum | app/pages/Category/components/GenreForm/GenreForm.tsx:9-17 | a text without an ASCII letter or digit gives the empty slug |
| Slug.SlugifyOfSlug | app/pages/Category/components/GenreForm/GenreForm.tsx:15-16 | a slug is its own slug |
| Slug.SlugifyIdempotent | app/pages/Animes/AnimeList.tsx:42-50 | slugifying a slug again changes nothing |
| Slug.Collapse | app/pages/Category/components/GenreForm/GenreForm.tsx:15 | each run of non-alphanumerics becomes one hyphen: the result holds only lowercase letters, digits and `-`, never two hyphens in a row, and is empty only for an empty input |
| Slug.CollapseKeepsAlnum | app/pages/Category/components/GenreForm/GenreForm.tsx:15 | collapsing keeps the letters and digits, in order |
| Slug.StripLeading | app/pages/Category/components/GenreForm/GenreForm.tsx:16 | only hyphens are dropped, from the front, until the first non-hyphen |
| Slug.StripTrailing | app/pages/Category/components/GenreForm/GenreForm.tsx:16 | only hyphens are dropped, from the back, until the last non-hyphen |
| Slug.WhitespaceSlug | app/common/store/season/season.store.ts:84 | `name.toLowerCase().replace(/\s+/g, "-")` has no whitespace and no uppercase letter |
| Slug.HyphenateSpaces | app/common/store/season/season.store.ts:84 | each whitespace run becomes one hyphen: no whitespace is left, every other character comes from the input, and only an empty input gives an empty result |
| Slug.HyphenateWithoutSpace | app/common/store/season/season.store.ts:84 | a text without whitespace is left as it is |
| Slug.WhitespaceSlugWithoutSpace | app/pages/Animes/components/SeasonModal/SeasonModal.tsx:524 | a name without whitespace is just lowercased |
| Slug.WhitespaceSlugIdempotent | app/pages/Animes/components/SeasonModal/SeasonModal.tsx:524 | applying the season slug twice gives the same as once |
| Slug.WhitespaceSlugKeeps | app/pages/Animes/components/SeasonModal/SeasonModal.tsx:524 | apart from hyphens and whitespace, the slug holds exactly the characters of the lowercased name, in order |
| GenreForm.Form.constructor | app/pages/Category/components/GenreForm/GenreForm.tsx:19-45 | the name, slug and description fields start empty |
| GenreForm.Form.HandleNameChange | app/pages/Category/components/GenreForm/GenreForm.tsx:20-24 | the name field takes the typed value, the slug field becomes that value's slug and the description is untouched, so the slug field is a slug of the name |
| AnimeList.GenreNumbers | app/pages/Animes/AnimeList.tsx:92-96 | every kept entry is the number of some input entry; every input entry that converts to a number has its number kept |
| AnimeList.GenreNumbersOfNumeric | app/pages/Animes/AnimeList.tsx:92-96 | when every entry converts, one number per entry in the same order |
| AnimeList.GenreNumbersOfNone | app/pages/Animes/AnimeList.tsx:92-96 | when no entry converts, no genres |
| AnimeList.BuildAnimePayload | app/pages/Animes/AnimeList.tsx:52-98 | the title and the text fields are copied; the slug is a slug of the given slug, else of the title; `releaseYear` is kept only when its number is non-zero; non-array studios or genres give `[]`; a non-number rating falls back to `Number(rating) \|\| 0` |
| AnimeList.Nums | app/pages/Animes/AnimeList.tsx:92-96 | the numeric genre ids as form values, one for each |
| AnimeList.GenreNumbersOfNums | app/pages/Animes/AnimeList.tsx:92-96 | numeric genre ids pass through unchanged |
| AnimeList.BuildOfFormOf | app/pages/Animes/AnimeList.tsx:52-98 | a saved payload read back as form values builds the same payload again |
| AnimeList.EmptySlugFallsBack | app/pages/Animes/AnimeList.tsx:83 | a slug that comes out empty is replaced by the title's slug the next time |
| AnimeList.FlatGenres | app/pages/Animes/AnimeList.tsx:149 | a genre is listed exactly when some anime has it |
| AnimeList.AllGenres | app/pages/Animes/AnimeList.tsx:149 | the genre list has no duplicates, holds exactly the genres of the animes, and keeps the order in which each genre first appears |
| AnimeList.FilteredAnimes | app/pages/Animes/AnimeList.tsx:150-154 | an order-preserving sublist whose titles contain the search ignoring case and which have the chosen genre; every anime passing both is kept |
| AnimeList.FilteredWithoutFilters | app/pages/Animes/AnimeList.tsx:150-154 | an empty search and no genre keep every anime |
| AnimeList.FilteredIgnoresCase | app/pages/Animes/AnimeList.tsx:150-154 | a lowercased search term filters like the term itself |
| AnimeList.RatingNumber | app/pages/Animes/AnimeList.tsx:334-337 | a number rating is kept; anything else falls back to `Number(rating) \|\| 0` |
| AnimeList.ClampTen | app/pages/Animes/AnimeList.tsx:338 | the clamped rating lies in [0, 10], equals the rating inside that range and sits at the nearer bound outside it |
| AnimeList.StarCount | app/pages/Animes/AnimeList.tsx:339-342 | the star count is at most 5 and is the clamped rating halved, rounded half up |
| AnimeList.EmptyStars | app/pages/Animes/AnimeList.tsx:343-344 | full and empty stars always add up to 5 |
| AnimeList.StarCountMonotone | app/pages/Animes/AnimeList.tsx:334-342 | a higher rating never shows fewer stars |
| AnimeList.Featured | app/pages/Animes/AnimeList.tsx:205-206 | the override wins when there is one, else the anime's own flag |
| AnimeList.Toggled | app/pages/Animes/AnimeList.tsx:208-221 | the anime gets an override and no other override changes; its featured state is negated, or left as it was when the request threw |
| AnimeList.ToggledOthers | app/pages/Animes/AnimeList.tsx:208-221 | toggling one anime leaves every other anime's featured state |
| AnimeList.ToggledTwice | app/pages/Animes/AnimeList.tsx:208-221 | two toggles that both go through restore the featured state |
| AnimeList.SeasonData | app/pages/Animes/AnimeList.tsx:184-204 | the season handed to the store carries the selected anime's id and the modal's name, slug and number |
| AnimeList.Page.constructor | app/pages/Animes/AnimeList.tsx:125-136 | empty search, no genre, no modal, no selection, season modal closed and no featured overrides |
| AnimeList.Page.SetSearch | app/pages/Animes/AnimeList.tsx:125 | only the search changes |
| AnimeList.Page.SetGenre | app/pages/Animes/AnimeList.tsx:126 | only the genre filter changes |
| AnimeList.Page.OpenAdd | app/pages/Animes/AnimeList.tsx:157-160 | the add modal opens with no selection |
| AnimeList.Page.OpenEdit | app/pages/Animes/AnimeList.tsx:161-164 | the edit modal opens with the anime selected |
| AnimeList.Page.OpenDelete | app/pages/Animes/AnimeList.tsx:165-168 | the delete modal opens with the anime selected |
| AnimeList.Page.OpenSeasons | app/pages/Animes/AnimeList.tsx:169-174 | the season modal opens for the anime and its seasons are fetched into the season store |
| AnimeList.Page.CloseModal | app/pages/Animes/AnimeList.tsx:175-178 | no modal and no selection |
| AnimeList.Page.CloseSeasonModal | app/pages/Animes/AnimeList.tsx:179-182 | the season modal closes and no modal is open; the selection stays |
| AnimeList.Page.HandleAddSeason | app/pages/Animes/AnimeList.tsx:184-190 | nothing without a selected anime; otherwise the store is asked to create the season for it; the store's loading ends; on success the seasons are refetched for the anime and replace the list (or, if the refetch fails, the list stays and its message is the error); on failure nothing is refetched and the request's message, or the default, is the error |
| AnimeList.Page.HandleEditSeason | app/pages/Animes/AnimeList.tsx:191-197 | nothing without a selected anime or a season id; otherwise the store is asked to update that season of the anime; the store's loading ends; on success the seasons are refetched for the anime and replace the list (or, if the refetch fails, the list stays and its message is the error); on failure nothing is refetched and the request's message, or the default, is the error |
| AnimeList.Page.HandleDeleteSeason | app/pages/Animes/AnimeList.tsx:198-203 | nothing without a selected anime or a season id; otherwise the store is asked to delete that season of the anime; the store's loading ends; on success the seasons are refetched for the anime and replace the list (or, if the refetch fails, the list stays and its message is the error); on failure nothing is refetched and the request's message, or the default, is the error |
| AnimeList.Page.ToggleFeatured | app/pages/Animes/AnimeList.tsx:208-221 | the overrides become `Toggled`, and the request adds or removes the anime from the featured list by its state before the click |
| AnimeList.Page.HandleFormSubmit | app/pages/Animes/AnimeList.tsx:223-236 | the add modal adds the built payload; the edit modal with a selection updates that anime; anything else sends nothing; the modal always closes |
| AnimeList.Page.HandleDelete | app/pages/Animes/AnimeList.tsx:238-247 | the selected anime is deleted, nothing without one; the modal always closes |
| AnimeAddEditModal.EntryIdSpec | app/pages/Animes/components/AnimeAddEditModal/AnimeAddEditModal.tsx:61-74 | a string or number entry maps to the id of a genre whose id or name it spells, and to its own text when none does; an object with an id maps to that id as text; every other entry maps to nothing |
| AnimeAddEditModal.NonEmptyTexts | app/pages/Animes/components/AnimeAddEditModal/AnimeAddEditModal.tsx:60-75 | the kept texts are non-empty and no more than the entries |
| AnimeAddEditModal.NonEmptyTextsSound | app/pages/Animes/components/AnimeAddEditModal/AnimeAddEditModal.tsx:60-75 | each kept text is what the mapping gives for one of the entries |
| AnimeAddEditModal.NonEmptyTextsComplete | app/pages/Animes/components/AnimeAddEditModal/AnimeAddEditModal.tsx:60-75 | every entry the mapping sends to a non-empty text has that text kept |
| AnimeAddEditModal.EntryIds | app/pages/Animes/components/AnimeAddEditModal/AnimeAddEditModal.tsx:60-75 | the kept ids are non-empty and no more than the entries |
| AnimeAddEditModal.EntryIdsSpec | app/pages/Animes/components/AnimeAddEditModal/AnimeAddEditModal.tsx:60-75 | each kept id comes from one entry; every entry with a non-empty id has it kept |
| AnimeAddEditModal.Entries | app/pages/Animes/components/AnimeAddEditModal/AnimeAddEditModal.tsx:59 | an array is read as its items, anything else as a one-element list |
| AnimeAddEditModal.NormalizedIds | app/pages/Animes/components/AnimeAddEditModal/AnimeAddEditModal.tsx:57-77 | the normalised ids are non-empty, have no duplicates, each comes from an entry, and every entry's non-empty id is among them, in the order each first appears |
| AnimeAddEditModal.EntryIdOfNonName | app/pages/Animes/components/AnimeAddEditModal/AnimeAddEditModal.tsx:62-67 | a text that names no genre passes through as itself |
| AnimeAddEditModal.EntryIdsOfSelfNaming | app/pages/Animes/components/AnimeAddEditModal/AnimeAddEditModal.tsx:60-75 | ids that map to themselves are kept as they are |
| AnimeAddEditModal.NormalizedIdsIdempotent | app/pages/Animes/components/AnimeAddEditModal/AnimeAddEditModal.tsx:57-77 | normalising an already normalised list again changes nothing, when none of its ids is another genre's name |
| AnimeAddEditModal.InitValues | app/pages/Animes/components/AnimeAddEditModal/AnimeAddEditModal.tsx:56-78 | the same fields as the initial values; every field but `genres` is copied; a truthy `genres` becomes its normalised ids, a falsy one is kept |
| AnimeAddEditModal.Relabel | app/pages/Animes/components/AnimeAddEditModal/AnimeAddEditModal.tsx:163-170 | a known key keeps its place among the options and takes the new label; no other option changes |
| AnimeAddEditModal.GenreOptions | app/pages/Animes/components/AnimeAddEditModal/AnimeAddEditModal.tsx:163-170 | filling the map genre by genre gives at most one option per genre |
| AnimeAddEditModal.DistinctOptions | app/pages/Animes/components/AnimeAddEditModal/AnimeAddEditModal.tsx:163-170 | one option per distinct id, in order of first occurrence |
| AnimeAddEditModal.LastNameSnoc | app/pages/Animes/components/AnimeAddEditModal/AnimeAddEditModal.tsx:163-170 | a later genre with the same id replaces the label |
| AnimeAddEditModal.RelabelStep | app/pages/Animes/components/AnimeAddEditModal/AnimeAddEditModal.tsx:163-170 | an entry whose key is already there keeps every option labelled by the last genre with its id |
| AnimeAddEditModal.AppendStep | app/pages/Animes/components/AnimeAddEditModal/AnimeAddEditModal.tsx:163-170 | an entry with a new key appends its option and keeps the others labelled |
| AnimeAddEditModal.FoldStep | app/pages/Animes/components/AnimeAddEditModal/AnimeAddEditModal.tsx:163-170 | one more genre relabels the option of a known id or appends an option for a new one, and the options still label the distinct ids |
| AnimeAddEditModal.LabelsSnoc | app/pages/Animes/components/AnimeAddEditModal/AnimeAddEditModal.tsx:163-170 | the options built from one more genre label the distinct ids of the longer list |
| AnimeAddEditModal.GenreOptionsLabels | app/pages/Animes/components/AnimeAddEditModal/AnimeAddEditModal.tsx:163-170 | the options list each distinct id once, in first-seen order, labelled with the name of the last genre carrying it |
| AnimeAddEditModal.GenreOptionsDistinct | app/pages/Animes/components/AnimeAddEditModal/AnimeAddEditModal.tsx:163-170 | the map-built options equal the independent definition: ids unique, the last genre's name wins |
| AnimeAddEditModal.Modal.constructor | app/pages/Animes/components/AnimeAddEditModal/AnimeAddEditModal.tsx:41 | closed, not initialised, an empty form |
| AnimeAddEditModal.Modal.InitEffect | app/pages/Animes/components/AnimeAddEditModal/AnimeAddEditModal.tsx:52-81 | while open and not yet initialised the form takes the normalised initial values and the modal is marked initialised; otherwise nothing changes |
| AnimeAddEditModal.Modal.Open | app/pages/Animes/components/AnimeAddEditModal/AnimeAddEditModal.tsx:52-81 | opening fills the form at most once per opening |
| AnimeAddEditModal.Modal.Close | app/pages/Animes/components/AnimeAddEditModal/AnimeAddEditModal.tsx:84-88 | closing clears the initialised mark and keeps the form values |
| AnimeAddEditModal.TitleTyped | app/pages/Animes/components/AnimeAddEditModal/AnimeAddEditModal.tsx:124-138 | the title is stored, an empty or unset slug takes the given slug, a filled one keeps its text, and every other field stays |
| AnimeAddEditModal.TitleTypedTwice | app/pages/Animes/components/AnimeAddEditModal/AnimeAddEditModal.tsx:124-138 | after two title changes the slug is the one from the first change whose slug was non-empty, and the title is the last one typed |
| AnimeAddEditModal.Modal.OnTitleChange | app/pages/Animes/components/AnimeAddEditModal/AnimeAddEditModal.tsx:124-138 | the form values become `TitleTyped` of the old values, the typed title and its slug; the modal stays open or closed and keeps its initialised mark |
| SeasonModal.MatchHere | app/pages/Animes/components/SeasonModal/SeasonModal.tsx:521 | a match at the start of the text begins with "sezon" and captures a non-empty run of digits |
| SeasonModal.FirstMatch | app/pages/Animes/components/SeasonModal/SeasonModal.tsx:521 | a captured number is a non-empty run of digits, found only in a text that contains "sezon" |
| SeasonModal.FirstMatchNowhere | app/pages/Animes/components/SeasonModal/SeasonModal.tsx:521 | no capture only when the pattern matches at no position |
| SeasonModal.FirstMatchAtLeftmost | app/pages/Animes/components/SeasonModal/SeasonModal.tsx:521 | a capture is the one at the leftmost position where the pattern matches |
| SeasonModal.FirstMatchLeftmost | app/pages/Animes/components/SeasonModal/SeasonModal.tsx:521 | the capture is the one at the leftmost position where the pattern matches, and there is none only when it matches nowhere |
| SeasonModal.SeasonNumber | app/pages/Animes/components/SeasonModal/SeasonModal.tsx:521-522 | no name, or a name without "sezon" in any letter case, gives season number 1 |
| SeasonModal.SeasonNumberOfName | app/pages/Animes/components/SeasonModal/SeasonModal.tsx:521-522 | "Sezon", in any letter case, then whitespace, then the decimal digits of n gives season number n |
| SeasonModal.SeasonFormData | app/pages/Animes/components/SeasonModal/SeasonModal.tsx:517-537 | a new season: the name or "", the extracted number, and a slug made of the lowercased name with whitespace runs as hyphens; the year and episode count are passed on |
| SeasonModal.SeasonFormSlugSaved | app/pages/Animes/components/SeasonModal/SeasonModal.tsx:524 | the slug the season store sends for the form's season is the whitespace slug of its name |
| SeasonModal.TextOr | app/pages/Animes/components/SeasonModal/SeasonModal.tsx:623-632 | `s \|\| fallback` on a text field: the text when non-empty, else the fallback |
| SeasonModal.NumberOrElse | app/pages/Animes/components/SeasonModal/SeasonModal.tsx:623-632 | `n \|\| fallback` on a number field: the number when non-zero, else the fallback |
| SeasonModal.EpisodeFinish | app/pages/Animes/components/SeasonModal/SeasonModal.tsx:609-634 | nothing exactly when the title or the episode number is missing; otherwise the episode with the empty texts as "", the duration defaulting to 25 and the release date to the current year |
| SeasonModal.EpisodeFinishRoundTrip | app/pages/Animes/components/SeasonModal/SeasonModal.tsx:609-634 | every saved episode is complete, and a complete episode saved unchanged comes back as it was |
| SeasonModal.PaginatedSeasons | app/pages/Animes/components/SeasonModal/SeasonModal.tsx:249-252 | at most 4 rows, each a season of the list |
| SeasonModal.PaginatedEpisodes | app/pages/Animes/components/SeasonModal/SeasonModal.tsx:254-256 | at most 4 rows, each an episode of the list; no rows when the episodes are not an array |
| SeasonModal.PaginatedSeasonsRows | app/pages/Animes/components/SeasonModal/SeasonModal.tsx:249-252 | page p shows the seasons from offset 4·(p-1) on, in order, four of them when that many remain, and none exactly when the list ends before that offset |
| SeasonModal.SelectedId | app/pages/Animes/components/SeasonModal/SeasonModal.tsx:127 | an id is read only from the selected season |
| SeasonModal.ValuesOf | app/pages/Animes/components/SeasonModal/SeasonModal.tsx:119-122 | the episode form filled with an episode holds its title and its number |
| SeasonModal.NewSeason | app/pages/Animes/components/SeasonModal/SeasonModal.tsx:90-93 | the draft for a new season has no id, an empty name and number `seasons.length + 1` |
| SeasonModal.NewEpisode | app/pages/Animes/components/SeasonModal/SeasonModal.tsx:112-118 | the draft for a new episode has no id, an empty title and number `episodes.length + 1` (1 when there is no list) |
| SeasonModal.Modal.constructor | app/pages/Animes/components/SeasonModal/SeasonModal.tsx:68-79 | the seasons view on page 1 with no selection, every form closed and nothing to delete |
| SeasonModal.Modal.SeasonRows | app/pages/Animes/components/SeasonModal/SeasonModal.tsx:249-252 | the rows of the current page: at most 4, each a season of the list |
| SeasonModal.Modal.EpisodeRows | app/pages/Animes/components/SeasonModal/SeasonModal.tsx:254-256 | the rows of the current page: at most 4 episodes, none without an episode list |
| SeasonModal.Modal.SetPage | app/pages/Animes/components/SeasonModal/SeasonModal.tsx:70 | only the page changes |
| SeasonModal.Modal.HandleAdd | app/pages/Animes/components/SeasonModal/SeasonModal.tsx:90-93 | the season form opens on the draft for a new season |
| SeasonModal.Modal.HandleEdit | app/pages/Animes/components/SeasonModal/SeasonModal.tsx:94-97 | the season form opens on the season |
| SeasonModal.Modal.HandleFormSave | app/pages/Animes/components/SeasonModal/SeasonModal.tsx:98-106 | an edited season with an id goes to the edit callback, keeping its id; anything else goes to the add callback; the form closes |
| SeasonModal.Modal.HandleFormCancel | app/pages/Animes/components/SeasonModal/SeasonModal.tsx:107-110 | the season form closes with no edited season |
| SeasonModal.Modal.HandleAddEpisode | app/pages/Animes/components/SeasonModal/SeasonModal.tsx:112-118 | the episode form opens on the draft for a new episode |
| SeasonModal.Modal.HandleEditEpisode | app/pages/Animes/components/SeasonModal/SeasonModal.tsx:119-122 | the episode form opens on the episode's values |
| SeasonModal.Modal.HandleEpisodeFormSave | app/pages/Animes/components/SeasonModal/SeasonModal.tsx:123-163 | an edited episode with an id is updated with the selected season's id, and the form closes; otherwise, without an anime id or a season id, an error and the form stays; else the episode is added, and the form closes unless the add threw |
| SeasonModal.Modal.SubmitEpisodeForm | app/pages/Animes/components/SeasonModal/SeasonModal.tsx:609-634 | a missing title or number gives a warning and nothing else; otherwise the completed episode is saved: an update of the edited episode in the selected season and the form closes, an error when the anime or the season id is missing, or an add to the selected season that closes the form unless it threw |
| SeasonModal.Modal.HandleEpisodeFormCancel | app/pages/Animes/components/SeasonModal/SeasonModal.tsx:164-167 | the episode form closes with no edited episode |
| SeasonModal.Modal.HandleDeleteSeason | app/pages/Animes/components/SeasonModal/SeasonModal.tsx:169-172 | the confirmation opens for the season |
| SeasonModal.Modal.HandleDeleteEpisode | app/pages/Animes/components/SeasonModal/SeasonModal.tsx:174-177 | the confirmation opens for the episode |
| SeasonModal.Modal.HandleConfirmDelete | app/pages/Animes/components/SeasonModal/SeasonModal.tsx:179-201 | a season goes to the delete callback, with a reload of the seasons when there is an anime id; an episode with an id is deleted, with a reload of the episodes when both ids are known; the confirmation always closes |
| SeasonModal.Modal.HandleCancelDelete | app/pages/Animes/components/SeasonModal/SeasonModal.tsx:203-206 | the confirmation closes with nothing to delete |
| SeasonModal.Modal.HandleManageEpisodes | app/pages/Animes/components/SeasonModal/SeasonModal.tsx:208-233 | the episodes view of the season on page 1; its episodes are fetched when both ids are known, otherwise an error is shown |
| SeasonModal.Modal.HandleBackToSeasons | app/pages/Animes/components/SeasonModal/SeasonModal.tsx:235-239 | the seasons view on page 1 with no selection |
| SeasonModal.Modal.HandleModalCancel | app/pages/Animes/components/SeasonModal/SeasonModal.tsx:241-247 | the seasons view on page 1 with no selection, then the cancel callback |
| TopicModal.TagsOf | app/pages/Forum/components/TopicModal/TopicModal.tsx:46-48 | an empty or absent field gives no tags; otherwise one tag per comma-separated part, each the part trimmed, so no tag holds a comma or surrounding whitespace |
| TopicModal.TrimPart | app/pages/Forum/components/TopicModal/TopicModal.tsx:47 | trimming a comma-free part leaves it comma-free |
| TopicModal.PrefillTags | app/pages/Forum/components/TopicModal/TopicModal.tsx:33 | the prefilled field is the tags joined by ", ", or "" when the topic has none |
| TopicModal.Spaced | app/pages/Forum/components/TopicModal/TopicModal.tsx:33 | the parts of a prefilled field before trimming: the first tag, then each further tag behind one space |
| TopicModal.SplitPrefilled | app/pages/Forum/components/TopicModal/TopicModal.tsx:33-47 | splitting the joined tags at the commas gives the tags back, each after the first preceded by the separator's space |
| TopicModal.TagsRoundTrip | app/pages/Forum/components/TopicModal/TopicModal.tsx:33-48 | saving an edited topic unchanged keeps its tags when none holds a comma or surrounding whitespace; the single empty tag comes back as no tags |
| TopicModal.TagsOfSingle | app/pages/Forum/components/TopicModal/TopicModal.tsx:46-48 | a field without a comma gives one tag, the field trimmed |
| TopicModal.UpdateIdAsWritten | app/pages/Forum/components/TopicModal/TopicModal.tsx:54 | the modal passes the topic's numeric id as it is |
| TopicModal.UpdateAsWrittenKeepsStaleTopic | app/pages/Forum/components/TopicModal/TopicModal.tsx:54 | with the numeric id the store's list keeps every topic as it was: the update never shows |
| TopicModal.UpdateId | app/pages/Forum/components/TopicModal/TopicModal.tsx:54 | the id as the decimal string, which the edited topic matches in the store |
| TopicModal.UpdateReplacesEditedTopic | app/pages/Forum/components/TopicModal/TopicModal.tsx:54 | with the decimal string the store's replacement is the forum store's `ReplaceTopic`, and every topic with the edited topic's id takes the update |
| TopicModal.Form.constructor | app/pages/Forum/components/TopicModal/TopicModal.tsx:25 | every field of the form empty |
| TopicModal.Form.Sync | app/pages/Forum/components/TopicModal/TopicModal.tsx:28-38 | open in edit mode with a topic, the form shows its title, content and joined tags; open in create mode, the form is empty; otherwise it is left alone |
| TopicModal.Form.Submit | app/pages/Forum/components/TopicModal/TopicModal.tsx:40-65 | nothing when the title or content is missing or an edit has no id; otherwise the topic is created in the forum (appended on success) or the update sent with the given id and applied by the store's comparison, with the trimmed tags; the form resets, the modal asks to close and the success callback runs |
| TopicModal.Form.HandleSubmitAsWritten | app/pages/Forum/components/TopicModal/TopicModal.tsx:40-65 | as written: the update carries the numeric topic id, so on success the store's list stays exactly as it was; the create path, the reset and the callbacks as in `Submit` |
| TopicModal.Form.HandleSubmit | app/pages/Forum/components/TopicModal/TopicModal.tsx:40-65 | corrected: the update carries the decimal string id, so on success the edited topic is replaced as by the forum store's `ReplaceTopic`; otherwise as `HandleSubmitAsWritten` |
| AnalyticsChart.KindNamesDistinct | app/pages/Dashboard/components/AnalyticsChart.tsx:52-56 | the four entry types are distinct, so each field's entries can be told apart |
| AnalyticsChart.RawData | app/pages/Dashboard/components/AnalyticsChart.tsx:38-49 | "weekly" and "monthly" read their own dataset; any other period reads the daily one |
| AnalyticsChart.EntryOf | app/pages/Dashboard/components/AnalyticsChart.tsx:52-56 | an entry carries the point's date, the field's value and the field's type |
| AnalyticsChart.EntriesOf | app/pages/Dashboard/components/AnalyticsChart.tsx:52-56 | four entries per point, in the order views, comments, new users, episodes |
| AnalyticsChart.Transform | app/pages/Dashboard/components/AnalyticsChart.tsx:50-59 | the transformed data has four entries per point |
| AnalyticsChart.TransformShape | app/pages/Dashboard/components/AnalyticsChart.tsx:50-59 | entry 4·i+j is field j of point i, so the points keep their order |
| AnalyticsChart.GetChartData | app/pages/Dashboard/components/AnalyticsChart.tsx:37-60 | the loop builds exactly the transformed data of the selected dataset: four entries per point |
| AnalyticsChart.OfKind | app/pages/Dashboard/components/AnalyticsChart.tsx:249 | the kept entries all have the type asked for and come from the data |
| AnalyticsChart.OfKindAppend | app/pages/Dashboard/components/AnalyticsChart.tsx:249 | filtering by type distributes over concatenation |
| AnalyticsChart.OfKindEntries | app/pages/Dashboard/components/AnalyticsChart.tsx:52-56 | of a point's four entries exactly one has a given field's type |
| AnalyticsChart.FieldEntries | app/pages/Dashboard/components/AnalyticsChart.tsx:248-249 | one entry per point |
| AnalyticsChart.FieldEntriesAt | app/pages/Dashboard/components/AnalyticsChart.tsx:248-249 | entry i is field f of point i |
| AnalyticsChart.OfKindTransformSnoc | app/pages/Dashboard/components/AnalyticsChart.tsx:248-249 | filtering the transformed data by a type gives that field's entries, built point by point |
| AnalyticsChart.OfKindTransform | app/pages/Dashboard/components/AnalyticsChart.tsx:248-249 | the entries of one type are that field's entries, one per point, in point order |
| AnalyticsChart.AxisDatesOfPoints | app/pages/Dashboard/components/AnalyticsChart.tsx:246-251 | the x axis has one date per point of the dataset, in its order |
| AnalyticsChart.SeriesSource | app/pages/Dashboard/components/AnalyticsChart.tsx:272-276 | the series read "daily" and "weekly" from their own dataset and any other tab from the monthly one |
| AnalyticsChart.Series | app/pages/Dashboard/components/AnalyticsChart.tsx:272-323 | one value per point of the series' dataset, that point's field |
| AnalyticsChart.SeriesMatchesChartData | app/pages/Dashboard/components/AnalyticsChart.tsx:246-323 | for the three tabs each series is the values of its field's entries in the chart data, and has as many values as the axis has dates |
| AnalyticsChart.Totals | app/pages/Dashboard/components/AnalyticsChart.tsx:62-96 | each total is the sum of its field over the points |
| AnalyticsChart.SummaryOf | app/pages/Dashboard/components/AnalyticsChart.tsx:62-96 | the three tabs give the totals of their own dataset; any other period gives four zeros |
| AnalyticsChart.GetChartSummary | app/pages/Dashboard/components/AnalyticsChart.tsx:62-96 | the running totals of the loop are the summary of the selected period |
| AnalyticsChart.SumOfEntries | app/pages/Dashboard/components/AnalyticsChart.tsx:62-96 | each total equals the sum of that field's entries in the chart data |
| AnalyticsChart.SumValuesOfField | app/pages/Dashboard/components/AnalyticsChart.tsx:62-96 | summing a field's entries gives the field's sum over the points |
| AnalyticsChart.UnknownPeriod | app/pages/Dashboard/components/AnalyticsChart.tsx:37-96 | an unknown period reads the daily points for the axis but the monthly points for the series, and its summary is all zeros |
| ActivityList.SafeValue | app/pages/Dashboard/components/ActivityList.tsx:14-25 | a number is itself; an object gives its numeric `value`, else its numeric `count`, else 0; an array gives its length; numeric text gives its number; anything else gives 0 |
| ActivityList.SafeValueOfDecimal | app/pages/Dashboard/components/ActivityList.tsx:23 | a counter sent as decimal text reads the same as the number |
| ActivityList.SafeValueOfWrapped | app/pages/Dashboard/components/ActivityList.tsx:16-20 | `{ value: n }` and `{ count: n }` both read as n, and `value` wins over `count` |
| ActivityList.StatField | app/pages/Dashboard/components/ActivityList.tsx:31 | `stats?.[key]`: undefined without statistics |
| ActivityList.Activities | app/pages/Dashboard/components/ActivityList.tsx:27-55 | five rows: comments, reports, pending reports and views read leniently from the statistics, then the last-update date, or "N/A" when there is none |
| ActivityList.ActivitiesWithoutStats | app/pages/Dashboard/components/ActivityList.tsx:27-55 | without statistics the four counters show 0 and the date shows "N/A" |
| ActivityList.ActivitiesOfDefault | app/pages/Dashboard/components/ActivityList.tsx:27-55 | the store's fallback statistics show four zero counters and their time stamp |
| CategoryList.Categories | app/pages/Dashboard/components/CategoryList.tsx:14-48 | five rows of counters, in order animes, active users, total users, banned users and views, each read with the same lenient decoder |
| CategoryList.CategoriesWithoutStats | app/pages/Dashboard/components/CategoryList.tsx:26-48 | without statistics every counter shows 0 |
| CategoryList.CategoriesOfDefault | app/pages/Dashboard/components/CategoryList.tsx:26-48 | the store's fallback statistics show five zero counters |
| ForumList.Query | app/pages/Forum/ForumList.tsx:76 | the search term trimmed and lowercased, so it holds no uppercase letter |
| ForumList.Filtered | app/pages/Forum/ForumList.tsx:75-84 | a blank term keeps every forum; otherwise an order-preserving sublist holding exactly the forums whose title, description or category contains the term, ignoring case |
| ForumList.FilteredIdempotent | app/pages/Forum/ForumList.tsx:75-84 | searching the result again with the same term changes nothing |
| ForumList.FilteredIgnoresPadding | app/pages/Forum/ForumList.tsx:76 | a leading space in the term does not change the result |
| ForumList.FilteredOfBlank | app/pages/Forum/ForumList.tsx:77 | a term of whitespace only keeps every forum |
| ForumList.DeleteByNumberRemovesId | app/pages/Forum/ForumList.tsx:159-161 | deleting by the decimal form of a numeric topic id removes exactly the topics with that id and keeps every other one |
| ForumList.ValuesOf | app/pages/Forum/ForumList.tsx:92-101 | the edit form holds the forum's title, description, category and active flag |
| ForumList.Page.constructor | app/pages/Forum/ForumList.tsx:44-68 | empty search, nothing open or being edited, an empty form, and both tables on page 1 with 10 rows |
| ForumList.Page.Rows | app/pages/Forum/ForumList.tsx:75-84 | the table's rows are an order-preserving sublist of the store's forums |
| ForumList.Page.SetSearch | app/pages/Forum/ForumList.tsx:209 | only the search changes |
| ForumList.Page.OpenAdd | app/pages/Forum/ForumList.tsx:86-90 | the modal opens for a new forum on an empty form |
| ForumList.Page.OpenEdit | app/pages/Forum/ForumList.tsx:92-101 | the modal opens for the forum on its values |
| ForumList.Page.CancelModal | app/pages/Forum/ForumList.tsx:86-101 | the modal closes; what it held stays |
| ForumList.Page.OnSubmit | app/pages/Forum/ForumList.tsx:103-113 | a form that fails validation changes nothing; otherwise the edited forum is replaced or the new one appended by the store, and the modal closes on an empty form whatever the request's outcome |
| ForumList.Page.OpenDeleteModal | app/pages/Forum/ForumList.tsx:115-118 | the confirmation opens for the forum |
| ForumList.Page.CloseDeleteModal | app/pages/Forum/ForumList.tsx:120-123 | the confirmation closes with no forum to delete |
| ForumList.Page.HandleDelete | app/pages/Forum/ForumList.tsx:125-134 | nothing without a forum to delete; otherwise the store removes it and the confirmation closes, since the store keeps its own errors |
| ForumList.Page.OnToggleStatus | app/pages/Forum/ForumList.tsx:192-194 | the forum is edited with only its active flag, and the store replaces it on success |
| ForumList.Page.OnViewTopics | app/pages/Forum/ForumList.tsx:140-146 | the topic view of the forum shows its loaded topics on page 1 with 10 rows |
| ForumList.Page.BackToForums | app/pages/Forum/ForumList.tsx:233 | the topic view closes |
| ForumList.Page.SetPage | app/pages/Forum/ForumList.tsx:224 | only the forum table's page changes |
| ForumList.Page.SetTopicsPage | app/pages/Forum/ForumList.tsx:395 | only the topic table's page changes |
| ForumList.Page.OnAddTopic | app/pages/Forum/ForumList.tsx:148-152 | the topic modal opens in create mode for the forum |
| ForumList.Page.OnEditTopic | app/pages/Forum/ForumList.tsx:154-157 | the topic modal opens in edit mode on the topic |
| ForumList.Page.CloseTopicModal | app/pages/Forum/ForumList.tsx:434-437 | the topic modal closes with no topic being edited |
| ForumList.Page.OnTopicSaved | app/pages/Forum/ForumList.tsx:441-446 | the viewed forum's topics are reloaded; nothing happens without a viewed forum |
| ForumList.Page.OnDeleteTopic | app/pages/Forum/ForumList.tsx:159-166 | the store removes the topics with the decimal form of the id |
| ForumList.Page.OnModerateTopic | app/pages/Forum/ForumList.tsx:168-190 | pin, lock and sticky flip their flag on the topics with the decimal form of the id |
| CharacterList.Query | app/pages/Characters/CharacterList.tsx:48 | the search term trimmed and lowercased, so it holds no uppercase letter |
| CharacterList.Filtered | app/pages/Characters/CharacterList.tsx:47-55 | a blank term keeps every character; otherwise an order-preserving sublist holding exactly the characters whose name or description contains the term, ignoring case |
| CharacterList.FilteredIdempotent | app/pages/Characters/CharacterList.tsx:47-55 | searching the result again with the same term changes nothing |
| CharacterList.NoDescriptionMatchesByName | app/pages/Characters/CharacterList.tsx:53 | a character without a description is found by its name alone |
| CharacterList.TextField | app/pages/Characters/CharacterList.tsx:79-87 | an absent text stays absent in the form; a present one is put there as text |
| CharacterList.AnimeTitle | app/pages/Characters/CharacterList.tsx:75-77 | the embedded anime's title when non-empty, else the character's `animeTitle` when non-empty, else none |
| CharacterList.AnimeId | app/pages/Characters/CharacterList.tsx:75-82 | the embedded anime's id unless it is null or undefined, else the character's `animeId` |
| CharacterList.Coalesce | app/pages/Characters/CharacterList.tsx:159-160 | `a ?? b`: a unless it is null or undefined |
| CharacterList.PrefillAsWritten | app/pages/Characters/CharacterList.tsx:71-89 | the edit form gets every field of the character, but the anime select receives the anime's title |
| CharacterList.Prefill | app/pages/Characters/CharacterList.tsx:71-89 | the same form with the anime's id in the anime select, the value its options carry |
| CharacterList.OrUndefined | app/pages/Characters/CharacterList.tsx:102-104 | `v \|\| undefined`: a falsy value is left out |
| CharacterList.PayloadOf | app/pages/Characters/CharacterList.tsx:99-110 | the anime id is sent as `Number` of the select only when truthy; falsy texts are left out; the role is sent upper-cased only when truthy; the age is left out exactly when null or undefined, else sent as `Number(age)` |
| CharacterList.UpperOfUpper | app/pages/Characters/CharacterList.tsx:105 | a role already in upper case is sent unchanged |
| CharacterList.AgeClearedIsZero | app/pages/Characters/CharacterList.tsx:106-109 | an age field cleared to empty text is sent as 0, not left out |
| CharacterList.PrefillRoundTrip | app/pages/Characters/CharacterList.tsx:71-110 | saving the corrected edit form unchanged sends the character's name, description, role and age back, and a numeric anime id as that number |
| CharacterList.PrefillAsWrittenLosesAnime | app/pages/Characters/CharacterList.tsx:82 | with the title in the anime select, saving unchanged sends NaN as the anime id |
| CharacterList.PrefillKeepsAnime | app/pages/Characters/CharacterList.tsx:82 | with the anime's id in the select, the edit sends that id, and the form validates exactly when the name and the role are set |
| CharacterList.OptionOf | app/pages/Characters/CharacterList.tsx:158-161 | the option's value falls back from id to slug to the query, its label from title to name to slug to id to the query |
| CharacterList.BareItemOption | app/pages/Characters/CharacterList.tsx:159-160 | an item with none of those fields is offered under the query itself |
| CharacterList.IdentifiedItemOption | app/pages/Characters/CharacterList.tsx:159-160 | an item with an id and a title is offered as that id under that title |
| CharacterList.ItemsOf | app/pages/Characters/CharacterList.tsx:151 | the lookup list is the data when it is an array, else its `items` array, else empty |
| CharacterList.LookupOptions | app/pages/Characters/CharacterList.tsx:151-164 | one option per item, in order; no options when the response has no list or an item is null, where the mapping throws |
| CharacterList.SearchRequest | app/pages/Characters/CharacterList.tsx:176-180 | a blank term reloads all characters; any other searches by the trimmed term as both name and anime |
| CharacterList.Page.constructor | app/pages/Characters/CharacterList.tsx:26-40 | empty search, every modal closed, nothing edited, viewed or being deleted, no options and no pending lookup |
| CharacterList.Page.Rows | app/pages/Characters/CharacterList.tsx:47-55 | the table's rows are an order-preserving sublist of the characters |
| CharacterList.Page.SetSearch | app/pages/Characters/CharacterList.tsx:175 | only the search changes |
| CharacterList.Page.OpenAdd | app/pages/Characters/CharacterList.tsx:66-70 | the form modal opens for a new character on an empty form |
| CharacterList.Page.OpenEditAsWritten | app/pages/Characters/CharacterList.tsx:71-89 | as written: the form modal opens for the character with the anime's title in the anime select |
| CharacterList.Page.OpenEdit | app/pages/Characters/CharacterList.tsx:71-89 | corrected: the form modal opens for the character with the anime's id in the anime select |
| CharacterList.Page.OnView | app/pages/Characters/CharacterList.tsx:91-95 | the detail modal opens on the character |
| CharacterList.Page.CloseView | app/pages/Characters/CharacterList.tsx:91-95 | the detail modal closes |
| CharacterList.Page.CancelModal | app/pages/Characters/CharacterList.tsx:200 | the form modal closes and keeps what was typed |
| CharacterList.Page.OnSubmit | app/pages/Characters/CharacterList.tsx:97-119 | nothing when the anime, name or role is missing; otherwise the edited character is updated or a new one added with the payload, and the modal closes on an empty form |
| CharacterList.Page.OnDelete | app/pages/Characters/CharacterList.tsx:121-124 | the confirmation opens for the character |
| CharacterList.Page.HandleDeleteConfirm | app/pages/Characters/CharacterList.tsx:126-132 | nothing without a character; otherwise it is removed and the confirmation closes |
| CharacterList.Page.HandleDeleteCancel | app/pages/Characters/CharacterList.tsx:134-137 | the confirmation closes with no character |
| CharacterList.Page.HandleAnimeLookup | app/pages/Characters/CharacterList.tsx:139-169 | a blank query clears the options and leaves a pending timer alone; any other replaces the pending lookup with the trimmed query and marks fetching |
| CharacterList.Page.FireLookup | app/pages/Characters/CharacterList.tsx:147-168 | a firing timer sets the options from the response, or none when the lookup failed, and ends fetching |
| GenreList.Query | app/pages/Category/GenreList.tsx:29 | the search term trimmed and lowercased, so it holds no uppercase letter |
| GenreList.Filtered | app/pages/Category/GenreList.tsx:28-36 | a blank term keeps every genre; otherwise an order-preserving sublist holding exactly the genres whose name or description contains the term, ignoring case |
| GenreList.FilteredIdempotent | app/pages/Category/GenreList.tsx:28-36 | searching the result again with the same term changes nothing |
| GenreList.FilteredOfBlank | app/pages/Category/GenreList.tsx:30 | a term of whitespace only keeps every genre |
| GenreList.Page.constructor | app/pages/Category/GenreList.tsx:19-22 | empty search, the modal closed, nothing edited and an empty form |
| GenreList.Page.Rows | app/pages/Category/GenreList.tsx:28-36 | the table's rows are an order-preserving sublist of the genres |
| GenreList.Page.SetSearch | app/pages/Category/GenreList.tsx:70 | only the search changes |
| GenreList.Page.OpenAdd | app/pages/Category/GenreList.tsx:38-42 | the modal opens for a new genre on an empty form |
| GenreList.Page.OpenEditAsWritten | app/pages/Category/GenreList.tsx:44-48 | the modal opens on the genre's name and description; the slug field keeps what it last held |
| GenreList.Page.OpenEdit | app/pages/Category/GenreList.tsx:44-48 | the modal opens on the genre's name, description and own slug |
| GenreList.Page.CancelModal | app/pages/Category/GenreList.tsx:83 | the modal closes and the form keeps what was typed |
| GenreList.Page.OnSubmit | app/pages/Category/GenreList.tsx:50-60 | nothing when the name is empty; otherwise the edited genre is updated or a new one added with the form's name, slug and description, and the modal closes on an empty form |
| GenreList.Page.OnDelete | app/pages/Category/GenreList.tsx:62-64 | the genre is removed at once |
| GenreList.StaleSlugAsWritten | app/pages/Category/GenreList.tsx:38-60 | typing a name in the add form, cancelling, then editing another genre and saving it unchanged sends the slug of the cancelled name |
| GenreList.EditKeepsOwnSlug | app/pages/Category/GenreList.tsx:38-60 | the same steps with the slug filled on edit send the edited genre's own slug |

## Left out

- The REST layer (`services/api/*.ts` and the axios instance) is not part of this model. Each call is an outcome parameter of the store action that makes it.
- The anime, genre, character, episode and auth stores are not modelled. They only fetch and refetch, with no local logic. The pages' use of them is modelled as the requests the pages send.
- Timers and async interleaving are not modelled. This covers the 300 ms debounce of the anime lookups, which the model reduces to a pending query and an explicit firing step (`CharacterList.Page.FireLookup`). It also covers React's effect scheduling and state-update batching: each handler's updates are applied in order, in one step.
- Rendering is not modelled: antd components, CSS modules, ECharts options, colour maps, notifications and console output. Notifications appear only as effect values where the order of effects matters.
- Unicode is not modelled. Lower-casing, trimming and whitespace are ASCII only. The NFKD normalisation and combining-mark removal of both slug functions is not modelled, so a non-ASCII letter counts as non-alphanumeric.
- Numbers are integers. Fractional values, exponents, hexadecimal text and `Infinity` in `Number(v)` are not modelled; such text reads as NaN. The star rating is computed on whole ratings, and the comment dashboard's approval percentage is not modelled.
- Dates are not modelled. `createdAt` is an integer timestamp, and a date range is a pair of integers. `toLocaleDateString` and `new Date().getFullYear()` are parameters (`dateText`, `now`, `year`).
- CSV export in the comment page (`CommentList.tsx:290-325`) is not modelled. It builds a Blob and drives a DOM download.
- The comment page's delete, approve and reject confirmations (`CommentList.tsx:420-456`) and the lookup of the add/edit anime select (`CommentList.tsx:458-530`) are not modelled. They only store modal state and call the store. Only the options they produce are modelled, through `Page.SetAnimeOptions`.
- CommentList.Visible: the `Array.isArray(comments)` guard is not modelled. The store already decodes a non-array response as `[]`, so the page always receives a list.
- AnimeAddEditModal: its effect that fetches the genres when the list is empty is not modelled. The genre list is a parameter of the init effect.
- AnimeAddEditModal.Modal.OnTitleChange: the form has no rendered slug field. The model states what the title handler writes into the form store. Whether antd passes that value on to the submitted values is not part of this model.
- ReplyModal is not part of this model. It reads reply actions that the forum store does not define.
- ForumList.Page.OnSubmit: antd's `validateFields` is a parameter (`validated`). The forum form's rules are not modelled.
- GenreForm.Form: the three fields are strings, so the model does not distinguish an `undefined` field from an empty one.
- CharacterList.Page.HandleAnimeLookup: a blank query does not cancel a timer that is already pending. The model keeps that pending lookup, as the code does.
- ForumStore, PeriodsStore, CommentStore, SeasonStore: an action that is awaited while another is in flight is not modelled. Each action runs to completion before the next one starts.
- `App.tsx` (routing, the particle background, the token guard), the sidebar, the header and the login screen are not part of this model.

## Findings

| source | as written | input that shows it | evidently intended | confidence | as-written member | corrected member |
|---|---|---|---|---|---|---|
| app/pages/Comments/CommentList.tsx:670 | the pager's `total` is `comments.length`, the number of all loaded comments, while the table shows only the filtered ones | nine loaded comments, all pending, with the status filter on APPROVED: the pager offers page 2, and the table is empty on both pages | the total is the number of comments that pass the filters | not executed | CommentList.PagerAsWrittenOffersEmptyPages | CommentList.PagerOffersNonEmptyPages |
| app/pages/Forum/components/TopicModal/TopicModal.tsx:54 | the update is sent with `editingTopic.id`, a number, and the store compares `t.id.toString() === id`, which is never true for a number | edit the topic with id 7 and save it: the store's list keeps the old topic 7 until the forum page's reload replaces it | the modal passes `editingTopic.id.toString()`, as the forum page's other topic handlers do | not executed | TopicModal.UpdateAsWrittenKeepsStaleTopic | TopicModal.UpdateReplacesEditedTopic |
| app/pages/Characters/CharacterList.tsx:82 | `openEdit` puts the anime's title into the anime select, whose options carry anime ids, and `onSubmit` sends `Number(title)` | a character of anime 5, titled "Naruto", edited and saved unchanged: the body carries NaN as `animeId` | the select is filled with the anime's id (`anime.id ?? animeId`), so the edit keeps the anime | not executed | CharacterList.PrefillAsWrittenLosesAnime | CharacterList.PrefillKeepsAnime |
| app/pages/Category/GenreList.tsx:44-48 | `openEdit` sets only the name and the description, so the slug field keeps whatever it last held | open "add", type "Action", cancel, then edit "Drama" and save it unchanged: the edit sends slug "action" | the slug field is filled with the edited genre's own slug | not executed | GenreList.StaleSlugAsWritten | GenreList.EditKeepsOwnSlug |
