# tech-flow core, modelled in Dafny

tech-flow is a Next.js application for saving web resources (articles,
tweets, Instagram posts, videos), tagging them, grouping them into
collections, summarising them with a language model and clustering them by
embedding. This project models its core logic:

- **Server routes.**
  - Tweet and Instagram lookup (`TweetFetch`, `InstagramFetch`).
  - Bookmark and saved-post import with de-duplication (`TweetImport`, `InstagramImport`).
  - Page metadata extraction (`PageMetadata`).
  - Embedding clustering with cosine k-means (`CosineClusters`).
  - The Euclidean `kmeans` helper (`EuclideanKMeans`).
- **Request middleware.** The sign-in redirects (`Middleware`).
- **Background summarisation.** The summarisation worker (`Summarization`).
- **Browser library.** The localStorage-backed library in `src/lib/utils.ts` (`LocalLibrary`).
- **Client stores.**
  - Resources, both the current store and the older one (`ResourceStore`, `UseResources`).
  - Collections (`CollectionStore`), tags (`TagStore`).
  - Notifications (`Notifications`), settings (`Settings`).
  - The row updates they share (`StoreRows`).
- **Dialogs and pages.**
  - The quick-save dialog (`QuickSave`) and its tag field (`TagInput`).
  - The validated save form (`SaveForm`) and the edit dialog (`EditResource`).
  - The search page (`SearchPage`) and the dashboard search panel (`SearchPanel`).
  - The collections grid (`CollectionsGrid`) and the profile card (`ProfileContent`).

JavaScript built-ins the code relies on live in `Common`:
- `||` over optional strings, `toLowerCase`, `includes`, `indexOf`;
- `trim`, `replace(/\s+/g, ' ')`, `split` on one character, `substring` with an ellipsis;
- `filter`, `sort` by a numeric key, `Array.from(new Set(...))`.

How the model is built:
- **Outside world.** The database, the network, the OpenAI, Twitter and Instagram clients, clocks and random ids are parameters of the operations that use them. A store method receives the answer the backend gave, as a `Result`. A route or a dialog receives the outcome of every call it makes.
- **Stores and dialogs.** Each store or stateful dialog is a class whose fields are its state. Each action is a method whose `ensures` gives the whole new state. The backend calls made are logged in a `calls` field.
- **Pure code.** Route handlers and pure helpers are functions, with lemmas about them.
- **Loops.** The source's loops over arrays are methods with loop invariants, proved against a specification function. Examples are the k-means passes, the centroid update, the tag tally and `calculateMean`.

## Model

| member | source | states |
|---|---|---|
| Common.FirstTruthy | src/app/api/metadata/route.ts:58-62 | `a \|\| b \|\| ...` is None exactly when every operand is missing or empty, and otherwise the first non-empty operand, every operand before it being falsy |
| Common.ToLower | src/lib/utils.ts:115 | `toLowerCase` keeps the length and lower-cases each character |
| Common.ToLowerIdempotent | src/lib/utils.ts:115-122 | lower-casing twice is lower-casing once |
| Common.IndexOf | src/app/api/social/instagram/route.ts:19 | the position found holds the pattern and no earlier position does; None means no position does |
| Common.IndexOfChar | src/app/api/social/instagram/route.ts:19 | for a one-character pattern, the position found is the first one holding that character |
| Common.TrimStart | src/app/api/metadata/route.ts:81 | the result is a suffix of the input, and it is empty or starts with a non-whitespace character |
| Common.TrimStartDropsBlank | src/app/api/metadata/route.ts:81 | what `trimStart` drops is all whitespace |
| Common.TrimEnd | src/app/api/metadata/route.ts:81 | the result is a prefix of the input, and it is empty or ends with a non-whitespace character |
| Common.TrimEndDropsBlank | src/app/api/metadata/route.ts:81 | what `trimEnd` drops is all whitespace |
| Common.TrimKeepsChars | src/components/save/SaveModal.tsx:59 | trimming only removes characters, so a comma-free piece stays comma-free |
| Common.TrimEmptyIffBlank | src/lib/stores/resourceStore.ts:41 | `trim()` is empty exactly for an all-whitespace input |
| Common.TrimsToEmpty | src/lib/stores/resourceStore.ts:41 | the `!s.trim()` test is true exactly for all-whitespace input |
| Common.CollapseSpacesProperties | src/app/api/metadata/route.ts:80 | collapsing whitespace runs gives no longer text, with no two adjacent spaces, that is empty only for empty text and starts and ends with whitespace exactly when the input does |
| Common.CollapseBlankIff | src/app/api/metadata/route.ts:78-81 | collapsing keeps text all-whitespace exactly when it was |
| Common.NoDoubleSpaceTrim | src/app/api/metadata/route.ts:80-81 | trimming collapsed text keeps it free of adjacent whitespace |
| Common.Split | src/app/api/social/twitter/route.ts:19 | `split` on one character gives at least one piece, and no piece holds the separator |
| Common.JoinSplit | src/app/api/social/twitter/route.ts:19 | joining the pieces of `split` with the separator gives back the input |
| Common.SplitWithout | src/components/save/SaveModal.tsx:57-58 | text without the separator splits into itself alone |
| Common.SplitFirstPiece | src/app/api/metadata/route.ts:72 | the first piece of `split` is the text before the first separator |
| Common.SplitLastPiece | src/app/api/social/twitter/route.ts:19 | the last piece (`pop()`) is the text after the last separator, or the whole text |
| Common.FirstPieceBefore | src/app/api/metadata/route.ts:72 | `split(c)[0]` is everything before the first `c` |
| Common.LastPieceAfter | src/app/api/social/twitter/route.ts:19 | `split(c).pop()` is everything after the last `c` |
| Common.LastPieceWhole | src/app/api/social/twitter/route.ts:19 | without a `c`, `pop()` returns the whole text |
| Common.Ellipsize | src/app/api/social/twitter/import-saves/route.ts:41 | short text is kept whole; longer text becomes its first n characters plus "...", n + 3 characters in all |
| Common.NatToString | src/lib/kmeans.ts:48 | `String(n)` is a non-empty string of decimal digits without a leading zero |
| Common.NatToStringRoundTrip | src/lib/kmeans.ts:48 | reading the digits of `String(n)` back gives n, so the text denotes n |
| Common.IsoMillis | src/app/api/social/instagram/import-saves/route.ts:35 | `new Date(seconds * 1000).toISOString()` succeeds exactly when the seconds are present and the time lies within ±8.64e15 ms, and then gives that time in milliseconds; otherwise it throws |
| Common.IsoMillisExamples | src/app/api/social/instagram/route.ts:65 | the epoch and a recent time convert; a missing time and the first second past the range throw; the range's lower end converts |
| Common.RemoveAll | src/components/features/SaveModal.tsx:160 | `filter(t => t !== x)` removes every copy of x, keeps every other element and changes nothing when x is absent; order is `RemoveAllKeepsOrder`, repeats `RemoveAllCounts` |
| Common.RemoveAllKeepsOrder | src/components/features/SaveModal.tsx:160 | removal is the filter `y !== x`, so the result is a subsequence of the list, in order |
| Common.RemoveAllCounts | src/components/features/SaveModal.tsx:160 | the result's multiset is the list's with every x dropped: each other element keeps its number of repeats |
| Common.RemoveAllAppend | src/components/features/SaveModal.tsx:160 | removing from a list with one element appended removes from the list and then from that element |
| Common.Toggle | src/components/search/SearchPage.tsx:34-40 | a click flips the tag's membership, keeps every other tag and appends a new tag at the end |
| Common.ToggleProperties | src/components/search/SearchPage.tsx:34-40 | toggling keeps a selection repeat-free, and toggling an unselected tag twice restores the selection |
| Common.AppendFreshKeepsNoDuplicates | src/components/features/SaveModal.tsx:38-39 | appending a tag not yet present keeps the list repeat-free |
| Common.RemoveAllKeepsNoDuplicates | src/components/features/SaveModal.tsx:160 | removing a tag keeps the list repeat-free |
| Common.DistinctProperties | src/components/search/SearchPage.tsx:17-21 | `Array.from(new Set(xs))` holds each element of xs exactly once and nothing else |
| Common.DistinctAppend | src/components/search/SearchPage.tsx:19 | adding an element to the insertion-ordered set appends it exactly when it is new |
| Common.SortDescSorted | src/lib/utils.ts:99 | the comparator sort is a permutation of its input, ordered by non-increasing key |
| Common.InsertDescKeepsOrder | src/lib/utils.ts:99 | inserting one element into a sorted list keeps it sorted and adds exactly that element |
| Common.Filter | src/lib/utils.ts:107 | `filter` keeps exactly the elements that pass, in their order |
| Common.FilterAppend | src/lib/utils.ts:107 | filtering a concatenation filters each part |
| Common.Unseen | src/app/api/social/twitter/import-saves/route.ts:61-62 | the import keeps exactly the items whose id is not stored, in order; repeats within the batch stay |
| Common.UnseenCons | src/app/api/social/twitter/import-saves/route.ts:61-62 | the first item is kept exactly when its id is not stored |
| Common.InFlatten | src/components/features/SearchResultsPanel.tsx:21 | a value is in the `flatMap` exactly when it is in one of the lists |
| Common.Take | src/components/features/SearchResultsPanel.tsx:72 | `slice(0, n)` is the leading min(n, length) elements |
| Common.MissingCharNotIncluded | src/components/collections/CollectionsGrid.tsx:83-91 | text that lacks one of a word's characters does not include the word |
| CosineClusters.AverageShape | src/app/api/clusters/route.ts:58-63 | the average of d-dimensional vectors has d components, each the column sum divided by the count |
| CosineClusters.AverageOfCopies | src/app/api/clusters/route.ts:58-63 | the average of copies of one vector is that vector |
| CosineClusters.ColumnSumOfCopies | src/app/api/clusters/route.ts:58-63 | the column sum of n copies of a vector is n times its component |
| CosineClusters.Average | src/app/api/clusters/route.ts:58-63 | `averageEmbedding`; proved in `AverageShape` and `AverageOfCopies` |
| CosineClusters.AverageExample | src/app/api/clusters/route.ts:58-63 | the average of (0,0) and (2,2) is (1,1) |
| CosineClusters.BestUpTo | src/app/api/clusters/route.ts:22-30 | the running minimum is Infinity at index 0, or the distance to the centroid it names |
| CosineClusters.BestUpToIsLowestArgMin | src/app/api/clusters/route.ts:22-30 | the strict `<` scan finds the first centroid at the smallest finite distance |
| CosineClusters.NearestIsLowestArgMin | src/app/api/clusters/route.ts:22-30 | the nearest centroid is at least as close as any other and strictly closer than every earlier one |
| CosineClusters.Nearest | src/app/api/clusters/route.ts:22-30 | the strict `<` scan over the centroids; proved in `NearestIsLowestArgMin` and `NearestDefaultsToZero` |
| CosineClusters.NearestDefaultsToZero | src/app/api/clusters/route.ts:22-30 | with no finite distance (NaN or Infinity) the point goes to cluster 0 |
| CosineClusters.NearestInRange | src/app/api/clusters/route.ts:22-31 | the chosen cluster is a valid centroid index (or 0) |
| CosineClusters.EmptyBuckets | src/app/api/clusters/route.ts:20 | `Array(k).fill().map(() => [])` is k empty buckets |
| CosineClusters.AssignUpTo | src/app/api/clusters/route.ts:21-32 | assigning the first n points yields as many buckets as slots |
| CosineClusters.AssignUpToPartitions | src/app/api/clusters/route.ts:21-32 | after n points, each index below n lies exactly in its nearest centroid's bucket, in order |
| CosineClusters.AssignUpToSkipsUnused | src/app/api/clusters/route.ts:21-32 | a centroid that no point is nearest to gets an empty bucket |
| CosineClusters.AssignPartitions | src/app/api/clusters/route.ts:20-32 | one pass yields one bucket per centroid, partitioning the indices by nearest centroid |
| CosineClusters.Assign | src/app/api/clusters/route.ts:20-32 | one assignment pass; proved in `AssignPartitions` |
| CosineClusters.AssignInRange | src/app/api/clusters/route.ts:21-32 | every bucketed index is a valid point index |
| CosineClusters.UpdateKeepsShape | src/app/api/clusters/route.ts:41-45 | the update keeps k centroids of dimension d, and an empty bucket keeps its centroid |
| CosineClusters.UpdateCentroids | src/app/api/clusters/route.ts:41-45 | the centroid update; proved in `UpdateKeepsShape` |
| CosineClusters.NewCentroid | src/app/api/clusters/route.ts:41-45 | a non-empty bucket's average, else the old centroid; proved in `UpdateKeepsShape` |
| CosineClusters.IterateUnfold | src/app/api/clusters/route.ts:18-46 | one loop iteration is an assignment followed by the centroid update |
| CosineClusters.IterateBounds | src/app/api/clusters/route.ts:18-46 | the loop runs at most the iteration limit and stops early once the assignment is unchanged |
| CosineClusters.RunProperties | src/app/api/clusters/route.ts:12-49 | k-means returns k buckets partitioning the points by nearest centroid of the last assignment (for some k centroids of dimension d), after at most the iteration limit |
| CosineClusters.Run | src/app/api/clusters/route.ts:12-49 | k-means from the first k points as seeds; proved in `RunProperties` |
| CosineClusters.Iterate | src/app/api/clusters/route.ts:18-46 | the iteration loop with its early exit; proved in `IterateUnfold` and `IterateBounds` |
| CosineClusters.NearestCentroid | src/app/api/clusters/route.ts:22-30 | the scan over the centroid array returns the specified nearest centroid |
| CosineClusters.AssignPass | src/app/api/clusters/route.ts:20-32 | the pass over the points fills exactly the specified buckets |
| CosineClusters.MoveCentroids | src/app/api/clusters/route.ts:41-45 | the centroid array is updated in place to the averages of its buckets |
| CosineClusters.KMeans | src/app/api/clusters/route.ts:12-49 | the imperative loop returns the buckets and pass count of the specification |
| CosineClusters.TallyCounts | src/app/api/clusters/route.ts:110-116 | the tag tally lists each tag once with its number of occurrences |
| CosineClusters.Tally | src/app/api/clusters/route.ts:110-116 | each distinct tag with its number of occurrences, in first-seen order; proved in `TallyCounts` |
| CosineClusters.TallyTags | src/app/api/clusters/route.ts:110-116 | the counting loop yields each tag's number of occurrences, keys in first-seen order |
| CosineClusters.SortByCountKeysDistinct | src/app/api/clusters/route.ts:119-120 | sorting the tally keeps its keys distinct |
| CosineClusters.SortedTallyEntries | src/app/api/clusters/route.ts:119-120 | the sorted tally is a permutation of the tally, by non-increasing count |
| CosineClusters.SortByCount | src/app/api/clusters/route.ts:119-120 | the tally sorted by count; proved in `SortedTallyEntries` |
| CosineClusters.ClusterTags | src/app/api/clusters/route.ts:110-114 | the members' tag names in member order; counted by `TallyCounts` |
| CosineClusters.Names | src/app/api/clusters/route.ts:122 | `map(([tag]) => tag)` keeps the order and takes each entry's tag |
| CosineClusters.CommonTagsProperties | src/app/api/clusters/route.ts:119-122 | `CommonTags` holds at most three distinct tags of the cluster, most frequent first, and any tag left out is no more frequent than the third |
| CosineClusters.CommonTags | src/app/api/clusters/route.ts:110-122 | the tally of the members' tags sorted by count and cut to three names; its properties are `CommonTagsProperties` |
| CosineClusters.CommonTagsOf | src/app/api/clusters/route.ts:110-122 | the loop computes the specified common tags |
| CosineClusters.ClusterIcon | src/app/api/clusters/route.ts:164-167 | the icon is `icons[index % 4]`, one of the four icons |
| CosineClusters.ClusterColor | src/app/api/clusters/route.ts:169-172 | the colour is `colors[index % 4]`, one of the four colours |
| CosineClusters.IconsAndColorsCycle | src/app/api/clusters/route.ts:164-172 | icons and colours repeat every four clusters and differ within four |
| CosineClusters.Titles | src/app/api/clusters/route.ts:125 | entry i is the title of member i, one per member |
| CosineClusters.Gather | src/app/api/clusters/route.ts:107 | `bucket.map(idx => xs[idx])`: one element per bucketed index, in bucket order |
| CosineClusters.GatherElements | src/app/api/clusters/route.ts:107 | entry t of a gathered bucket is the element its t-th index names, and nothing else is gathered |
| CosineClusters.ShapeCluster | src/app/api/clusters/route.ts:124-151 | a labelled cluster has id index, the labeller's title and description, its member count, the member ids in bucket order, and icon and colour for index mod 4; it fails exactly when the labeller fails |
| CosineClusters.LabelClusters | src/app/api/clusters/route.ts:106-152 | the labelled clusters, one per bucket in order, or failure when any label fails |
| CosineClusters.Embeddings | src/app/api/clusters/route.ts:101 | vector i is the embedding of row i, all of dimension d |
| CosineClusters.ClusterCount | src/app/api/clusters/route.ts:102 | k = min(4, N); used by `Get` |
| CosineClusters.Get | src/app/api/clusters/route.ts:65-162 | 401 without a session, 500 on a failed fetch, [] for no resources, 500 when an embedding is missing; otherwise k = min(4, N) k-means buckets over the embeddings, and the reply is exactly the labelled clusters when every label succeeds, else a 500 |
| EuclideanKMeans.SquaredDistanceNonNegative | src/lib/kmeans.ts:57-59 | the squared distance is never negative |
| EuclideanKMeans.SquaredDistanceSelf | src/lib/kmeans.ts:57-59 | a point is at distance 0 from itself |
| EuclideanKMeans.SquaredDistanceSymmetric | src/lib/kmeans.ts:57-59 | the distance is symmetric |
| EuclideanKMeans.SquaredDistanceProperties | src/lib/kmeans.ts:57-59 | zero on the diagonal, symmetric and non-negative |
| EuclideanKMeans.SquaredDistance | src/lib/kmeans.ts:57-59 | the sum of squared differences, the square of `euclideanDistance`; proved in `SquaredDistanceProperties` |
| EuclideanKMeans.SquaredDistanceExample | src/lib/kmeans.ts:57-59 | (1,0) and (0,1) are at squared distance 2 |
| EuclideanKMeans.CalculateMean | src/lib/kmeans.ts:61-73 | the accumulation loop yields the average of the points, and fails (throws) exactly for no points |
| EuclideanKMeans.Hex | src/lib/kmeans.ts:53 | `toString(16)` is a non-empty string |
| EuclideanKMeans.HexRoundTrip | src/lib/kmeans.ts:53 | reading the hex digits back gives the number |
| EuclideanKMeans.HexLength | src/lib/kmeans.ts:53 | a number below 16^m has at most m hex digits, so the colour has at most six |
| EuclideanKMeans.Record | src/lib/kmeans.ts:46-54 | record i has id i, title "Cluster i+1", the bucket as its ids and count, and icon 'BookOpen' |
| EuclideanKMeans.ToRecords | src/lib/kmeans.ts:46-54 | one record per bucket, in order |
| EuclideanKMeans.Pass | src/lib/kmeans.ts:19-35 | a pass creates one bucket per data point |
| EuclideanKMeans.PassInRange | src/lib/kmeans.ts:19-35 | a pass partitions the indices by nearest seed, and buckets past the seeds stay empty |
| EuclideanKMeans.PassesStep | src/lib/kmeans.ts:18-44 | one iteration is a pass and then the centroid update of the seeded buckets |
| EuclideanKMeans.FillBuckets | src/lib/kmeans.ts:19-35 | the imperative pass fills exactly the specified buckets |
| EuclideanKMeans.MoveSeeds | src/lib/kmeans.ts:37-41 | the update succeeds exactly when no seeded bucket is empty, and then moves each seed to its bucket's mean |
| EuclideanKMeans.KMeans | src/lib/kmeans.ts:11-55 | the imperative `kmeans` returns the specified records or throws |
| EuclideanKMeans.PassesShape | src/lib/kmeans.ts:18-44 | a completed run returns one bucket per data point, each index in range |
| EuclideanKMeans.KMeansRecords | src/lib/kmeans.ts:11-55 | with no pass, an array of k holes and no records; a completed run returns one record per data point, records past the seeds empty, each index under its nearest seed |
| EuclideanKMeans.KMeansSpec | src/lib/kmeans.ts:11-55 | `kmeans`: k holes for no pass, the thrown update, or the records of the passes; proved in `KMeansRecords` |
| EuclideanKMeans.Passes | src/lib/kmeans.ts:18-44 | the passes until the iteration budget is spent, or a thrown update; proved in `PassesStep` and `PassesShape` |
| EuclideanKMeans.RecordsOfPass | src/lib/kmeans.ts:46-54 | the records of a pass list each index under its nearest seed, with ids 0.. and icon 'BookOpen' |
| EuclideanKMeans.BestUpToSkipsTwin | src/lib/kmeans.ts:26-32 | a seed equal to the one before it is never chosen |
| EuclideanKMeans.EqualLeadingPointsThrow | src/lib/kmeans.ts:13-41 | two equal leading points with k >= 2 leave bucket 1 empty, and the update throws |
| EuclideanKMeans.SingleSeedGivesOneRecordPerPoint | src/lib/kmeans.ts:19 | with k = 1 the run completes and returns N records, not k |
| EuclideanKMeans.SingleSeedPasses | src/lib/kmeans.ts:19-41 | with one seed no update throws |
| EuclideanKMeans.IntendedPassesPartition | src/lib/kmeans.ts:11-55 | the corrected passes are a nearest-centroid assignment for some k centroids |
| EuclideanKMeans.IntendedBucketsPartition | src/lib/kmeans.ts:11-55 | the corrected buckets number min(k, N) and, after a pass, partition the indices |
| EuclideanKMeans.IntendedKMeansProperties | src/lib/kmeans.ts:11-55 | the corrected `kmeans` returns min(k, N) records whose counts add up to N, each index in its nearest centroid's record |
| EuclideanKMeans.IntendedKMeans | src/lib/kmeans.ts:11-55 | the corrected `kmeans`; proved in `IntendedKMeansProperties` |
| LocalLibrary.StorageKey | src/lib/utils.ts:54-60 | the storage key is the fixed prefix followed by the key |
| LocalLibrary.StorageKeyInjective | src/lib/utils.ts:54-72 | different keys never share a storage slot |
| LocalLibrary.Stamp | src/lib/utils.ts:79-84 | a saved resource gets the new id and the current date |
| LocalLibrary.StampKeepsDraft | src/lib/utils.ts:79-84 | stamping keeps every field of the draft |
| LocalLibrary.Storage.constructor | src/lib/utils.ts:54-60 | the library starts from the given window and stored items |
| LocalLibrary.Storage.GetFromStorage | src/lib/utils.ts:56-66 | without a window, or for a missing or unparsable item, the default; otherwise the stored value |
| LocalLibrary.Storage.SetToStorage | src/lib/utils.ts:68-76 | with a window the key's slot holds the value and every other key reads as before; without one nothing changes |
| LocalLibrary.Storage.SaveResource | src/lib/utils.ts:79-90 | the stamped resource is appended to the stored list, which is otherwise unchanged |
| LocalLibrary.Storage.GenerateMockData | src/lib/utils.ts:137-222 | with an empty library and a window, the sample resources are stored in order and the collections and profile slots hold the samples; any other key reads as before; otherwise nothing changes |
| LocalLibrary.MockResources | src/lib/utils.ts:141-186 | five sample resources |
| LocalLibrary.MockResourcesShape | src/lib/utils.ts:141-186 | the sample resources have distinct ids, the sample drafts and the current date |
| LocalLibrary.MockCollections | src/lib/utils.ts:189-208 | two empty sample collections with the next ids and the current date |
| LocalLibrary.RecentResourcesProperties | src/lib/utils.ts:96-101 | the recent list is the newest `limit` resources, newest first, each a stored resource, and no omitted one is newer than the last kept |
| LocalLibrary.RecentResources | src/lib/utils.ts:96-101 | sorted newest first, then cut to `limit`; proved in `RecentResourcesProperties` |
| LocalLibrary.SortedPrefixBound | src/lib/utils.ts:98-100 | in a list sorted newest first, an element past the prefix is no newer than its last element |
| LocalLibrary.InTagsOf | src/lib/utils.ts:105-109 | a tag is among the resources' tags exactly when some resource carries it |
| LocalLibrary.ResourcesByTagsProperties | src/lib/utils.ts:103-110 | the resources carrying any of the tags, in stored order |
| LocalLibrary.ResourcesByTags | src/lib/utils.ts:103-110 | nothing for no tags, else the stored resources carrying one of them; proved in `ResourcesByTagsProperties` |
| LocalLibrary.HasAnyTag | src/lib/utils.ts:107-109 | `tags.some(tag => resource.tags.includes(tag))`; used by `ResourcesByTagsProperties` |
| LocalLibrary.SearchResourcesProperties | src/lib/utils.ts:112-124 | an empty query finds nothing; otherwise exactly the resources whose title, tag, summary or notes contain the lower-cased query, in stored order |
| LocalLibrary.SearchResources | src/lib/utils.ts:112-124 | nothing for the empty query, else the lower-cased substring filter; proved in `SearchResourcesProperties` |
| LocalLibrary.Matches | src/lib/utils.ts:115-122 | the lower-cased query is in the title, a tag, the summary or the notes; used by `SearchResourcesProperties` |
| LocalLibrary.SearchIgnoresQueryCase | src/lib/utils.ts:112-124 | the search ignores the query's letter case |
| LocalLibrary.ToInt32 | src/lib/utils.ts:228 | `hash << 5` wraps to a signed 32-bit value congruent to the input; the `-` and `+` around it are not wrapped |
| LocalLibrary.Hue | src/lib/utils.ts:231 | `hash % 360` keeps the sign and lies strictly between -360 and 360 |
| LocalLibrary.Hash | src/lib/utils.ts:226-229 | the hash over the characters, left to right, each step `charCode + (ToInt32(hash << 5) - hash)`; its hue bound is `Hue` |
| LocalLibrary.StringToColor | src/lib/utils.ts:225-233 | the hash loop produces the colour "hsl(h, 70%, 60%)" for the hue of `Hash` |
| LocalLibrary.HueExamples | src/lib/utils.ts:225-233 | sample hashes and hues for "", "a" and "ab" |
| Middleware.IsPublicExplicit | src/middleware.ts:6-16 | a path is public exactly when it is one of the listed paths or lies below one |
| Middleware.IsPublic | src/middleware.ts:6-16 | the public-route test; proved in `IsPublicExplicit` |
| Middleware.PublicExamples | src/middleware.ts:13-16 | "/login/reset" is public; "/loginx" and "/api/authx" are not |
| Middleware.Decide | src/middleware.ts:24-35 | a signed-out visitor to a non-public path goes to login with the path remembered; a signed-in visitor to login or signup goes to the dashboard |
| Middleware.AccessRules | src/middleware.ts:24-33 | signed out, only public paths pass; signed in, nobody is sent to login |
| Middleware.NoRedirectLoop | src/middleware.ts:24-33 | the redirect target itself passes, so no redirect loops |
| Middleware.Target | src/middleware.ts:24-33 | the path a redirect goes to; proved in `AccessRules` and `NoRedirectLoop` |
| Middleware.Handle | src/middleware.ts:39-50 | only paths the matcher selects are redirected, by the rules above |
| Middleware.StaticAssetsPass | src/middleware.ts:39-50 | static assets and the favicon always pass |
| Middleware.DashboardNeedsSignIn | src/middleware.ts:24-28 | a signed-out visit to "/dashboard" redirects to login from "/dashboard" |
| TweetFetch.TweetId | src/app/api/social/twitter/route.ts:19 | the id is the last path piece cut at the first '?'; it holds no '/' or '?' |
| TweetFetch.TweetIdExampleQuery | src/app/api/social/twitter/route.ts:19 | "s/12?a=1" gives "12" |
| TweetFetch.TweetIdExampleSlashInQuery | src/app/api/social/twitter/route.ts:19 | a '/' in the query string makes the id come from the query |
| TweetFetch.TweetIdExampleTrailingSlash | src/app/api/social/twitter/route.ts:19-25 | a trailing slash gives an empty id, which is rejected |
| TweetFetch.Shape | src/app/api/social/twitter/route.ts:70-88 | the resource takes the author's name or 'Unknown' in the title, the text, the creation time, the url, the first media's preview or url as thumbnail, the first user's name, username and image as author (all null without users), and one entry per media item exactly when the tweet has media |
| TweetFetch.Get | src/app/api/social/twitter/route.ts:6-98 | 400 for a missing or unusable url, then 401 without a session or without credentials, 500 on a failed lookup, 404 for a missing tweet, else the shaped tweet |
| TweetFetch.UrlCheckedFirst | src/app/api/social/twitter/route.ts:11-50 | a bad url is refused with 400 whatever the session, credentials or lookup |
| InstagramFetch.PostId | src/app/api/social/instagram/route.ts:19 | the id is the text after the first "/p/" up to the next '/'; None exactly when there is no "/p/" |
| InstagramFetch.PostIdKeepsQuery | src/app/api/social/instagram/route.ts:19 | a query string stays in the id |
| InstagramFetch.PostIdNeedsMarker | src/app/api/social/instagram/route.ts:19-25 | a url without "/p/" has no id |
| InstagramFetch.PostIdMayBeEmpty | src/app/api/social/instagram/route.ts:19-25 | "a/p/" gives an empty id |
| InstagramFetch.Shape | src/app/api/social/instagram/route.ts:61-82 | fails exactly when converting `taken_at` throws; otherwise title from the user name, caption text or '', image or null, the time in milliseconds, the author, and one media entry per carousel item or one for a single post |
| InstagramFetch.Get | src/app/api/social/instagram/route.ts:6-92 | 400 for a missing or unusable url, then 401 without a session or credentials, then 500 when the lookup throws or the post's `taken_at` cannot be converted; a reply exactly when all pass, with the shaped post |
| InstagramFetch.UrlCheckedFirst | src/app/api/social/instagram/route.ts:11-50 | a bad url is refused with 400 whatever else holds |
| TweetImport.Thumbnail | src/app/api/social/twitter/import-saves/route.ts:43 | the corrected thumbnail is the preview image of the media the first key names, or null |
| TweetImport.ThumbnailAlwaysNull | src/app/api/social/twitter/import-saves/route.ts:43 | for a tweet with a photo the code as written stores null while the corrected lookup finds the preview |
| TweetImport.MapTweet | src/app/api/social/twitter/import-saves/route.ts:40-52 | a bookmark becomes a saved tweet: ellipsized title, status url, author, date and counts (0 when missing), with the CORRECTED thumbnail of the Findings row |
| TweetImport.AsWrittenMapTweet | src/app/api/social/twitter/import-saves/route.ts:40-52 | the mapping as written: the same record as `MapTweet` for any media, except that the thumbnail is always null |
| TweetImport.MapAll | src/app/api/social/twitter/import-saves/route.ts:40-52 | every bookmark is mapped in order; a missing date fails the mapping |
| TweetImport.StoredIds | src/app/api/social/twitter/import-saves/route.ts:61 | the ids already stored, none for a null answer |
| TweetImport.WithUser | src/app/api/social/twitter/import-saves/route.ts:64-67 | each new row is tagged with the user id, in order |
| TweetImport.ErrorReplies | src/app/api/social/twitter/import-saves/route.ts:20-86 | 400 without a user or token, 500 on a failed fetch or mapping with nothing inserted, 500 when the insert of new rows fails, and a count reply otherwise |
| TweetImport.CountsAddUp | src/app/api/social/twitter/import-saves/route.ts:78-82 | imported plus skipped equals total, total is the number of fetched items, imported is at most total and equals the number of rows inserted |
| TweetImport.InsertedAreNew | src/app/api/social/twitter/import-saves/route.ts:61-76 | the insert runs exactly when some bookmark is new, and its rows are exactly the new bookmarks in fetch order, each with the user id |
| TweetImport.Post | src/app/api/social/twitter/import-saves/route.ts:18-89 | the handler, built from the corrected `MapTweet`; its replies and inserts are stated by `ErrorReplies`, `CountsAddUp` and `InsertedAreNew` |
| TweetImport.ReimportInsertsNothing | src/app/api/social/twitter/import-saves/route.ts:54-62 | importing the same bookmarks again inserts nothing and skips them all |
| TweetImport.BatchRepeatsKept | src/app/api/social/twitter/import-saves/route.ts:61-62 | a bookmark repeated within one batch is inserted twice |
| InstagramImport.Title | src/app/api/social/instagram/import-saves/route.ts:32 | the corrected title is the ellipsized caption, or 'Instagram Post' without caption text |
| InstagramImport.MissingCaptionTitle | src/app/api/social/instagram/import-saves/route.ts:32 | without a caption the code as written titles the post "undefined"; otherwise both agree |
| InstagramImport.MapPost | src/app/api/social/instagram/import-saves/route.ts:31-44 | a saved post becomes a resource: post url, image or null, milliseconds, author and counts, with the CORRECTED title of the Findings row; the date is the converted `taken_at` |
| InstagramImport.AsWrittenMapPost | src/app/api/social/instagram/import-saves/route.ts:31-44 | the mapping as written differs from `MapPost` in the title alone, and exactly for a post without a caption |
| InstagramImport.MapAll | src/app/api/social/instagram/import-saves/route.ts:31-44 | fails exactly when some post's `taken_at` cannot be converted (the `toISOString` throw); otherwise every post is mapped in order |
| InstagramImport.StoredIds | src/app/api/social/instagram/import-saves/route.ts:53 | the ids already stored, none for a null answer |
| InstagramImport.WithUser | src/app/api/social/instagram/import-saves/route.ts:56-59 | each new row is tagged with the user id, in order |
| InstagramImport.ErrorReplies | src/app/api/social/instagram/import-saves/route.ts:12-79 | 400 without a user or token; 500 with nothing inserted on a failed login or fetch, or on a post whose `taken_at` the mapping throws on; 500 when the insert of new rows fails; and a count reply otherwise |
| InstagramImport.CountsAddUp | src/app/api/social/instagram/import-saves/route.ts:70-74 | imported plus skipped equals total, total is the number of fetched items, imported is at most total and equals the number of rows inserted |
| InstagramImport.InsertedAreNew | src/app/api/social/instagram/import-saves/route.ts:53-65 | the insert runs exactly when some post is new, and its rows are exactly the new posts in fetch order, each with the user id |
| InstagramImport.Post | src/app/api/social/instagram/import-saves/route.ts:10-81 | the handler, built from the corrected `MapPost` and the fallible `MapAll`; its replies, the `taken_at` 500 included, and its inserts are stated by `ErrorReplies`, `CountsAddUp` and `InsertedAreNew` |
| InstagramImport.ReimportInsertsNothing | src/app/api/social/instagram/import-saves/route.ts:46-54 | importing the same posts again (all with a convertible `taken_at`) inserts nothing and skips them all |
| InstagramImport.StoredPostSkipped | src/app/api/social/instagram/import-saves/route.ts:53-54 | a post already stored is skipped while a new one is inserted |
| InstagramImport.MissingTakenAtFailsImport | src/app/api/social/instagram/import-saves/route.ts:35 | one post without `taken_at` makes the whole import a 500 that inserts nothing |
| PageMetadata.Clean | src/app/api/metadata/route.ts:78-83 | the cleaned description has at most 300 characters, no double whitespace and no leading whitespace, and is empty exactly for blank input |
| PageMetadata.Extract | src/app/api/metadata/route.ts:37-83 | title and image from the first present tag; the meta description cleaned, else the article's first line cleaned, with the article kept as content |
| PageMetadata.ExtractedProperties | src/app/api/metadata/route.ts:37-83 | a page has exactly one extracted record, and its description has at most 300 characters, no double whitespace and no leading whitespace |
| PageMetadata.MetaDescription | src/app/api/metadata/route.ts:51-55 | og, then twitter, then the plain meta description, else empty; used by `Extracted` |
| PageMetadata.BlankMetaDescription | src/app/api/metadata/route.ts:51-83 | a whitespace-only meta description still takes precedence over the article, so the description is empty and no content is returned |
| PageMetadata.Get | src/app/api/metadata/route.ts:6-93 | 400 without a url, the fetch status on a non-OK answer, 500 when anything throws; a reply exactly for an OK answer, and its record is the one `Extracted` fixes for the page |
| Summarization.StripTags | src/lib/workers/summarizationWorker.ts:18 | removing tags leaves no complete tag, never lengthens text and keeps tag-free text as it is |
| Summarization.PageText | src/lib/workers/summarizationWorker.ts:13-23 | the page text is trimmed, has no double whitespace, and is empty exactly for a failed fetch or a blank page |
| Summarization.Prompt | src/lib/workers/summarizationWorker.ts:36 | the prompt is the fixed request followed by at most 4000 characters of content |
| Summarization.PromptSeesOnlyPrefix | src/lib/workers/summarizationWorker.ts:36 | contents that agree on their first 4000 characters give the same prompt |
| Summarization.Summary | src/lib/workers/summarizationWorker.ts:25-48 | a non-empty summary is exactly the model's non-empty answer; a failure or an empty answer gives '' |
| Summarization.UpdateOverrides | src/lib/workers/summarizationWorker.ts:55-74 | the final write overrides the 'processing' write |
| Summarization.FinalPatch | src/lib/workers/summarizationWorker.ts:61-82 | a failure marks 'failed'; otherwise the summary is stored with the time, 'completed' exactly when it is non-empty |
| Summarization.ProcessOneOutcome | src/lib/workers/summarizationWorker.ts:50-83 | processing a resource changes only its own row, and nothing without a url |
| Summarization.ProcessOne | src/lib/workers/summarizationWorker.ts:50-83 | the rows after one resource is processed; proved in `ProcessOneOutcome` |
| Summarization.PendingBatchProperties | src/lib/workers/summarizationWorker.ts:90-95 | the batch holds at most five pending resources, in stored order, and every pending resource when there are at most five |
| Summarization.PendingBatch | src/lib/workers/summarizationWorker.ts:90-95 | the first five rows with a null summary and status 'pending'; proved in `PendingBatchProperties` |
| Summarization.IsPending | src/lib/workers/summarizationWorker.ts:93-94 | a null summary and status 'pending'; used by `PendingBatchProperties` |
| Summarization.ProcessAllSnoc | src/lib/workers/summarizationWorker.ts:102-104 | processing a batch is processing its resources one after another |
| Summarization.ProcessAllKeepsOthers | src/lib/workers/summarizationWorker.ts:102-104 | rows outside the batch are untouched |
| Summarization.ProcessAll | src/lib/workers/summarizationWorker.ts:102-104 | the rows after the batch is processed in order; proved in `ProcessAllSnoc` and `ProcessAllKeepsOthers` |
| Summarization.ResourceTable.constructor | src/lib/workers/summarizationWorker.ts:89-95 | the table starts with the given rows and no status writes |
| Summarization.ResourceTable.ProcessResource | src/lib/workers/summarizationWorker.ts:50-83 | the row and status log change as the specification says |
| Summarization.ResourceTable.ProcessPending | src/lib/workers/summarizationWorker.ts:89-105 | a failed query changes nothing; otherwise the pending batch is processed |
| Summarization.ResourceTable.ProcessBatch | src/lib/workers/summarizationWorker.ts:102-104 | the loop processes the batch as the specification says |
| Summarization.ResourceTable.OnInsert | src/lib/workers/summarizationWorker.ts:120-125 | an inserted resource without a summary is processed; one with a summary is left alone |
| StoreRows.ReplaceByIdProperties | src/lib/stores/resourceStore.ts:123 | the map keeps length and order, replaces exactly the rows with the id, changes nothing without one and is idempotent |
| StoreRows.ReplaceById | src/lib/stores/resourceStore.ts:123 | `map(r => r.id === id ? row : r)`; proved in `ReplaceByIdProperties` |
| StoreRows.RemoveByIdProperties | src/lib/stores/resourceStore.ts:142 | the filter drops exactly the rows with the id, keeps the others in order and is idempotent |
| StoreRows.RemoveById | src/lib/stores/resourceStore.ts:142 | `filter(r => r.id !== id)`; proved in `RemoveByIdProperties` |
| StoreRows.RemoveByIdAppend | src/lib/hooks/useNotifications.ts:35-38 | removing from a concatenation removes from each part |
| ResourceStore.PendingInsert | src/lib/stores/resourceStore.ts:94-97 | the insert is the caller's row with the status forced to 'pending' |
| ResourceStore.Store.constructor | src/lib/stores/resourceStore.ts:30-35 | empty lists, no error, not loading, empty query, nothing selected |
| ResourceStore.Store.SetSearchQuery | src/lib/stores/resourceStore.ts:37 | only the query changes |
| ResourceStore.Store.SearchResources | src/lib/stores/resourceStore.ts:39-56 | a blank query empties the results without a call; otherwise the results or the error are stored |
| ResourceStore.Store.FetchResources | src/lib/stores/resourceStore.ts:58-71 | the returned rows (none for null) replace the list, or the error is recorded |
| ResourceStore.Store.FetchResourceById | src/lib/stores/resourceStore.ts:73-87 | the row becomes the selection, or the error is recorded |
| ResourceStore.Store.CreateResource | src/lib/stores/resourceStore.ts:89-109 | the row is inserted as pending and the returned row goes first |
| ResourceStore.Store.UpdateResource | src/lib/stores/resourceStore.ts:111-130 | rows with the id are replaced and the row is selected, or the error is recorded |
| ResourceStore.Store.DeleteResource | src/lib/stores/resourceStore.ts:132-149 | rows with the id leave and the selection clears, or the error is recorded |
| ResourceStore.Store.RetrySummary | src/lib/stores/resourceStore.ts:151-165 | the status is reset and the resource fetched again into the selection |
| ResourceStore.Store.ClearError | src/lib/stores/resourceStore.ts:167 | only the error clears |
| UseResources.Store.constructor | src/store/useResources.ts:20-24 | empty list, not loading, no error |
| UseResources.Store.FetchResources | src/store/useResources.ts:25-39 | the rows replace the list; an error is recorded and never cleared |
| UseResources.Store.AddResource | src/store/useResources.ts:41-59 | the returned row goes first, or the error is recorded |
| UseResources.Store.UpdateResource | src/store/useResources.ts:61-82 | rows with the id are replaced, or the error is recorded |
| UseResources.Store.DeleteResource | src/store/useResources.ts:84-101 | rows with the id leave, or the error is recorded |
| UseResources.Store.SearchResources | src/store/useResources.ts:103-117 | the matches are returned and the list kept; a failure returns none |
| UseResources.Store.GetResourcesByTags | src/store/useResources.ts:119-135 | the tagged rows are returned and the list kept; a failure returns none |
| UseResources.StaleErrorExample | src/store/useResources.ts:25-59 | after a failed fetch, a successful add keeps the old error message |
| CollectionStore.Store.constructor | src/lib/stores/collectionStore.ts:25-30 | empty list, not loading, no error, nothing selected |
| CollectionStore.Store.FetchCollections | src/lib/stores/collectionStore.ts:32-45 | the rows (none for null) replace the list, or the error is recorded |
| CollectionStore.Store.FetchCollectionById | src/lib/stores/collectionStore.ts:47-66 | the row becomes the selection, or the error is recorded |
| CollectionStore.Store.CreateCollection | src/lib/stores/collectionStore.ts:68-85 | the returned row goes first, or the error is recorded |
| CollectionStore.Store.UpdateCollection | src/lib/stores/collectionStore.ts:87-106 | rows with the id are replaced and the row selected, or the error is recorded |
| CollectionStore.Store.DeleteCollection | src/lib/stores/collectionStore.ts:108-125 | rows with the id leave and the selection clears, or the error is recorded |
| CollectionStore.Store.AddResourceToCollection | src/lib/stores/collectionStore.ts:127-143 | the link is inserted and the collection fetched again; the list never changes |
| CollectionStore.Store.RemoveResourceFromCollection | src/lib/stores/collectionStore.ts:145-162 | the link is deleted and the collection fetched again |
| CollectionStore.Store.ClearError | src/lib/stores/collectionStore.ts:164 | only the error clears |
| TagStore.SortByNameProperties | src/lib/stores/tagStore.ts:41-58 | sorting by name is a permutation in name order |
| TagStore.SortByName | src/lib/stores/tagStore.ts:52 | the sort by the name order; proved in `SortByNameProperties` |
| TagStore.CreatedTagProperties | src/lib/stores/tagStore.ts:41-58 | a created tag joins the list, all old tags are kept and the list stays in name order |
| TagStore.Store.constructor | src/lib/stores/tagStore.ts:20-24 | empty list, not loading, no error |
| TagStore.Store.FetchTags | src/lib/stores/tagStore.ts:26-39 | the rows (none for null) replace the list, or the error is recorded |
| TagStore.Store.CreateTag | src/lib/stores/tagStore.ts:41-58 | the returned tag is added and the list sorted by name, or the error is recorded |
| TagStore.Store.AddTagToResource | src/lib/stores/tagStore.ts:60-75 | the link is inserted; the tags stay; the error is the failure if any |
| TagStore.Store.RemoveTagFromResource | src/lib/stores/tagStore.ts:77-93 | the link is deleted; the tags stay; the error is the failure if any |
| TagStore.Store.ClearError | src/lib/stores/tagStore.ts:95 | only the error clears |
| Notifications.ScheduledProperties | src/lib/hooks/useNotifications.ts:27-33 | a removal is scheduled exactly for a duration other than 0, after the duration or 5000 ms |
| Notifications.Scheduled | src/lib/hooks/useNotifications.ts:27-33 | the timed removal a notification schedules, if any; proved in `ScheduledProperties` |
| Notifications.AddThenRemove | src/lib/hooks/useNotifications.ts:21-38 | removing a just-added notification restores the list |
| Notifications.Center.constructor | src/lib/hooks/useNotifications.ts:20 | no notifications, no timers |
| Notifications.Center.AddNotification | src/lib/hooks/useNotifications.ts:21-34 | the notification is appended and its removal scheduled unless the duration is 0 |
| Notifications.Center.RemoveNotification | src/lib/hooks/useNotifications.ts:35-38 | notifications with the id leave |
| Notifications.Center.ClearNotifications | src/lib/hooks/useNotifications.ts:39 | the list empties; timers stay pending |
| Notifications.Center.TimerFires | src/lib/hooks/useNotifications.ts:28-32 | a firing timer removes its notification's id and leaves the pending list |
| Notifications.Center.Notify | src/lib/hooks/useNotifications.ts:45-54 | each `notify` helper is an add of its kind |
| Settings.MergeProperties | src/lib/hooks/useSettings.ts:34-37 | the merge writes exactly the given fields; an empty patch changes nothing; merging twice is merging once |
| Settings.Merge | src/lib/hooks/useSettings.ts:34-37 | the patch merged over the settings; proved in `MergeProperties` |
| Settings.ToggleProperties | src/lib/hooks/useSettings.ts:49-55 | a toggle flips one flag, keeps the rest, and twice restores the settings |
| Settings.FlipPreview | src/lib/hooks/useSettings.ts:49-51 | the settings with `showPreview` flipped; proved in `ToggleProperties` |
| Settings.FlipAutoSave | src/lib/hooks/useSettings.ts:53-55 | the settings with `autoSave` flipped; proved in `ToggleProperties` |
| Settings.SettingsStore.constructor | src/lib/hooks/useSettings.ts:20-33 | the store starts from the defaults |
| Settings.SettingsStore.UpdateSettings | src/lib/hooks/useSettings.ts:34-37 | the patch is merged over the settings |
| Settings.SettingsStore.ResetSettings | src/lib/hooks/useSettings.ts:38 | back to the defaults |
| Settings.SettingsStore.TogglePreview | src/lib/hooks/useSettings.ts:49-51 | `showPreview` flips and nothing else changes |
| Settings.SettingsStore.ToggleAutoSave | src/lib/hooks/useSettings.ts:53-55 | `autoSave` flips and nothing else changes |
| TagInput.Added | src/components/features/SaveModal.tsx:37-42 | the list changes exactly when the trimmed input is non-empty and new, and then gains that tag at the end and the input clears |
| TagInput.AddThenRemove | src/components/features/SaveModal.tsx:37-42 | removing a just-added tag restores the list |
| TagInput.TagEditor.constructor | src/components/features/SaveModal.tsx:16-17 | no tags, empty input |
| TagInput.TagEditor.SetInput | src/components/features/SaveModal.tsx:16 | only the typed text changes |
| TagInput.TagEditor.AddTag | src/components/features/SaveModal.tsx:37-42 | the add behaves as `Added` and keeps the tags distinct and trimmed |
| TagInput.TagEditor.KeyDown | src/components/features/SaveModal.tsx:44-49 | Enter adds the tag; other keys change nothing |
| TagInput.TagEditor.RemoveTag | src/components/features/SaveModal.tsx:160 | the tag leaves the list; every other tag stays, in order (a subsequence, the multiset minus the tag); the list stays distinct and trimmed and the input is unchanged |
| QuickSave.QuickSaveDialog.constructor | src/components/features/SaveModal.tsx:13-18 | empty fields, type 'article', no tags |
| QuickSave.QuickSaveDialog.Submit | src/components/features/SaveModal.tsx:20-35 | without a url or title nothing happens; otherwise the library gains exactly the stamped resource and the dialog closes |
| SaveForm.ParseTagsMembers | src/components/save/SaveModal.tsx:57-60 | each parsed tag is non-empty, trimmed and comma-free, and the tags are exactly the non-empty trims of the pieces |
| SaveForm.ParseTagsSingle | src/components/save/SaveModal.tsx:57-60 | comma-free text is one tag, or none when blank |
| SaveForm.ParseTags | src/components/save/SaveModal.tsx:57-60 | split on commas, trim, drop empty pieces; proved in `ParseTagsMembers` and `ParseTagsSingle` |
| SaveForm.TrimAllFacts | src/components/save/SaveModal.tsx:59 | the trimmed pieces are comma-free and are exactly the trims of the pieces |
| SaveForm.FormErrorsMessages | src/components/save/SaveModal.tsx:23-46 | the messages recorded for a blank title, a blank or unparsable url and an empty type, and nothing else; no message exactly for a valid form |
| SaveForm.FormErrors | src/components/save/SaveModal.tsx:23-43 | the message recorded per field; proved in `FormErrorsMessages` |
| SaveForm.FormValid | src/components/save/SaveModal.tsx:44-45 | no message recorded; proved in `FormErrorsMessages` |
| SaveForm.SaveModal.constructor | src/components/save/SaveModal.tsx:14-21 | empty fields, type 'article', no errors, not saving |
| SaveForm.SaveModal.Validate | src/components/save/SaveModal.tsx:23-46 | the messages are recorded and the answer is whether there are none |
| SaveForm.SaveModal.Save | src/components/save/SaveModal.tsx:55-74 | the submission is recorded; the dialog closes, or the errors become the single 'submit' message |
| SaveForm.SaveModal.Submit | src/components/save/SaveModal.tsx:48-75 | an invalid form saves nothing; a valid one is saved with its parsed tags |
| SaveForm.SaveModal.Change | src/components/save/SaveModal.tsx:77-83 | the field takes the value and its non-empty message is blanked; everything else stays |
| SaveForm.ChangeKeepsOtherErrors | src/components/save/SaveModal.tsx:77-83 | editing a field leaves every other field's message |
| EditResource.SubmitPayload | src/components/features/EditResourceModal.tsx:59-64 | title, url and type as typed; the notes as the description, or null when empty |
| EditResource.MovePlan | src/components/features/EditResourceModal.tsx:66-80 | no moves when the collection is unchanged, at most two otherwise |
| EditResource.IntendedPlan | src/components/features/EditResourceModal.tsx:58-80 | the intended submit: the update, then the moves away from the collection that holds the resource; nothing but the update when the collection is unchanged |
| EditResource.CollectionResources | src/lib/dataService.ts:304-337 | `getCollectionResources(key)` throws 'Collection not found or access denied' exactly when the user has no collection with id key, and otherwise lists its resources |
| EditResource.FirstId | src/components/features/EditResourceModal.tsx:68 | `rows[0]?.id` is absent exactly for no rows, and otherwise the first row |
| EditResource.AsWrittenSubmit | src/components/features/EditResourceModal.tsx:55-86 | as written: a failed update ends the submit; otherwise the lookup keyed by the resource id follows, and it throws unless a collection has that id, so success requires that; then the moves run until one throws |
| EditResource.IssuedProperties | src/components/features/EditResourceModal.tsx:55-85 | the calls issued are a prefix of the plan, stopping at the first that throws; all are issued exactly when none before the last throws |
| EditResource.Issued | src/components/features/EditResourceModal.tsx:55-85 | the calls up to and including the first that throws; proved in `IssuedProperties` |
| EditResource.SubmitMovesResource | src/components/features/EditResourceModal.tsx:66-80 | the intended submit, with the collection that holds the resource as current, leaves the resource in the selected collection only, and other resources' memberships unchanged |
| EditResource.LookupKeyedByResourceId | src/components/features/EditResourceModal.tsx:67-80 | a resource kept in c1 and moved to c2: as written the submit throws after the update and moves nothing; the intended plan moves it |
| EditResource.IssueMoves | src/components/features/EditResourceModal.tsx:66-80 | the moves are issued until one throws, and failure is reported exactly then |
| EditResource.EditDialog.constructor | src/components/features/EditResourceModal.tsx:18-28 | the fields start from the resource, or empty text, with no tags and no selected collection |
| EditResource.EditDialog.Submit | src/components/features/EditResourceModal.tsx:49-89 | without url or title only the error clears; otherwise the calls of `AsWrittenSubmit` are issued, its error is recorded, and success calls `onSuccess` and closes the dialog; the summary flag and the other fields are unchanged |
| EditResource.EditDialog.Save | src/components/features/EditResourceModal.tsx:55-88 | the update, the lookup and the moves are issued as `AsWrittenSubmit` says; success closes the dialog, a throw records its message; loading ends and the summary flag is unchanged |
| EditResource.EditDialog.GenerateSummary | src/components/features/EditResourceModal.tsx:105-141 | a failed or thrown request sets an error and reports nothing; a non-empty summary is written as 'completed' and reported unless the write throws; an empty one writes nothing; the dialog stays open and the form, loading flag and selection are unchanged |
| SearchPage.AllTags | src/components/search/SearchPage.tsx:15-22 | the tag chips are the results' tags, each once, in order of first appearance |
| SearchPage.Results | src/components/search/SearchPage.tsx:24-32 | with tags selected, the stored resources carrying one; otherwise the text search; always in stored order |
| SearchPage.SearchView.constructor | src/components/search/SearchPage.tsx:10-13 | empty query and selection, no results, no tags |
| SearchPage.SearchView.Refresh | src/components/search/SearchPage.tsx:15-32 | both effects rerun: results, then their tags |
| SearchPage.SearchView.SetQuery | src/components/search/SearchPage.tsx:59 | the query changes and the view stays consistent |
| SearchPage.SearchView.TagClick | src/components/search/SearchPage.tsx:34-40 | the tag is toggled and the view stays consistent |
| SearchPage.SelectTwoTags | src/components/search/SearchPage.tsx:34-40 | selecting 'react' then 'hooks' gives both; clicking 'react' again leaves 'hooks' |
| SearchPanel.MountProperties | src/components/features/SearchResultsPanel.tsx:14-25 | on mount, the 15 newest stored resources and their distinct tags, nothing selected |
| SearchPanel.Mount | src/components/features/SearchResultsPanel.tsx:14-25 | the panel after mounting; proved in `MountProperties` |
| SearchPanel.ClickProperties | src/components/features/SearchResultsPanel.tsx:27-35 | a click flips one tag's selection and leaves everything else |
| SearchPanel.Click | src/components/features/SearchResultsPanel.tsx:27-35 | a tag click; proved in `ClickProperties` |
| SearchPanel.RenderProperties | src/components/features/SearchResultsPanel.tsx:37-72 | at most five tag buttons and five cards: tagged resources when selecting, else the recent ones |
| SearchPanel.Filtered | src/components/features/SearchResultsPanel.tsx:37-39 | tagged resources while tags are selected, else the recent list; proved in `RenderProperties` |
| SearchPanel.Render | src/components/features/SearchResultsPanel.tsx:53-72 | the shown tags and cards; proved in `RenderProperties` |
| SearchPanel.MountedRender | src/components/features/SearchResultsPanel.tsx:14-72 | right after mounting, the five newest resources and tags of stored resources |
| CollectionsGrid.IconRules | src/components/collections/CollectionsGrid.tsx:81-93 | each icon exactly for the words the lower-cased name contains, earlier rules winning |
| CollectionsGrid.IconFor | src/components/collections/CollectionsGrid.tsx:81-93 | the icon of a collection name; proved in `IconRules` |
| CollectionsGrid.IconIgnoresCase | src/components/collections/CollectionsGrid.tsx:81-82 | the icon ignores the name's case |
| CollectionsGrid.IconExampleDev | src/components/collections/CollectionsGrid.tsx:83-85 | "Dev Books" gets the code icon |
| CollectionsGrid.IconExampleStartup | src/components/collections/CollectionsGrid.tsx:86-88 | "Startup" contains "art" and gets the paintbrush |
| CollectionsGrid.IconExampleMisc | src/components/collections/CollectionsGrid.tsx:81-93 | "Misc" falls through to the file icon |
| CollectionsGrid.FlattenProperties | src/components/collections/CollectionsGrid.tsx:56-59 | one card per row keeping its fields, with the first aggregate count or 0 |
| CollectionsGrid.Flatten | src/components/collections/CollectionsGrid.tsx:56-59 | the cards of the rows; proved in `FlattenProperties` |
| CollectionsGrid.CountLabelProperties | src/components/collections/CollectionsGrid.tsx:160 | "resource" exactly for a count of one, otherwise "resources" |
| CollectionsGrid.CountLabel | src/components/collections/CollectionsGrid.tsx:160 | the count label; proved in `CountLabelProperties` |
| CollectionsGrid.LoadProperties | src/components/collections/CollectionsGrid.tsx:27-72 | loading ends exactly while mounted; rows replace the list only while mounted; the connect message for no user or PGRST116; otherwise the thrown message |
| CollectionsGrid.Load | src/components/collections/CollectionsGrid.tsx:27-72 | the load effect; proved in `LoadProperties` |
| ProfileContent.StoredProfile | src/components/profile/ProfileContent.tsx:24 | a stored profile is found only with a window and a stored item |
| ProfileContent.BadgesProperties | src/components/profile/ProfileContent.tsx:123-128 | the streak badge from five days, the flashcard badge from forty cards, each once, streak first |
| ProfileContent.Badges | src/components/profile/ProfileContent.tsx:123-133 | the badges shown; proved in `BadgesProperties` |
| ProfileContent.Displayed | src/components/profile/ProfileContent.tsx:24-29 | the edited copy, else the stored profile, else the default; used by `ProfileView` and `BadgeExamples` |
| ProfileContent.BadgeExamples | src/components/profile/ProfileContent.tsx:123-128 | the sample profile earns both badges, streak first; the default profile earns none |
| ProfileContent.ProfileView.constructor | src/components/profile/ProfileContent.tsx:21-29 | not editing; the stored profile or the default is shown |
| ProfileContent.ProfileView.Edit | src/components/profile/ProfileContent.tsx:31-35 | the shown profile becomes the edited copy and stays shown |
| ProfileContent.ProfileView.SetName | src/components/profile/ProfileContent.tsx:71-74 | only the edited copy's name changes, and only if there is one |
| ProfileContent.ProfileView.Save | src/components/profile/ProfileContent.tsx:37-44 | an edited profile is stored, reported and then shown; other stored keys are unchanged |
| ProfileContent.ProfileView.Cancel | src/components/profile/ProfileContent.tsx:46-49 | editing ends without storing, and the stored or default profile shows |

## Left out

- Networking, the database, the OpenAI, Twitter and Instagram clients, JSDOM and Readability: their answers are inputs; the model does not parse HTML or JSON.
- Rendering, animation and date formatting in the components: only state and the values that decide what is shown are modelled.
- `localeCompare` is a rank function given by the caller; random ids, `Date.now()` and `new Date()` are parameters.
- `setTimeout` in notifications: a scheduled removal is a pending timer that fires when the caller says; the timing itself is not modelled.
- Notifications.Center.AddNotification: a NaN duration is not modelled (durations are integers).
- Settings persistence through zustand `persist`, and the stale-closure reads of the hooks (a toggle uses the settings of the last render).
- UseResources.Store.FetchResources: a null success answer is not modelled; errors are kept as their message only.
- The cosine distance of `src/app/api/clusters/route.ts` is a parameter returning a number or Infinity or NaN; floating point is modelled by real numbers, so rounding is not modelled.
- EuclideanKMeans.SquaredDistanceProperties: does not state the converse, that distance 0 holds only for equal points; the nearest-seed reasoning never needs it.
- EuclideanKMeans.KMeans: the random colour is a `shade` parameter, formatted by `Hex`.
- The Euclidean distance is squared (no square root); the square root is monotone, so the nearest centroid is the same.
- `toLowerCase` maps only ASCII letters.
- A resource update's fields are a map from field name to text.
- ProfileContent.StoredProfile: a stored value that is not a profile is treated as absent.
- EditResource: the load effect that reads the resource's collections when the dialog opens is not modelled (the selection starts empty); it makes the same lookup keyed by the resource id. The lookup's other error, a missing signed-in user, is not modelled.
- Common.IsoMillis: takes whole seconds; a fractional `taken_at`, or one of another JSON type, is not modelled.
- Common.Ellipsize: counts Unicode scalar values, where `substring(0, n)` and `.length` count UTF-16 code units; text with characters outside the Basic Multilingual Plane (emoji) is cut at a different place.
- Summarization.Prompt: the 4000-character cut counts Unicode scalar values, not UTF-16 code units.
- PageMetadata.Clean: the 300-character cut counts Unicode scalar values, not UTF-16 code units.
- LocalLibrary.StringToColor: `Hash` walks Unicode scalar values, where `charCodeAt` walks UTF-16 code units, so text with emoji hashes differently.
- CosineClusters.Get: requires the present embeddings to share one dimension; the source accepts mixed dimensions, where `b[i]` is undefined and the cosine distance is NaN without a throw.
- CollectionsGrid: the OAuth connect buttons are not modelled.
- Middleware: the Supabase session refresh is not modelled; the session is an input.
- Summarization: the one run of `processPendingResources` at start-up and the realtime subscription are modelled as explicit calls of `ProcessPending` and `OnInsert`.

## Findings

| source | as written | input that shows it | evidently intended | confidence | as-written member | corrected member |
|---|---|---|---|---|---|---|
| src/lib/kmeans.ts:19 | `clusters = data.map(() => [])` makes one bucket per data point, so N records are returned | k = 1 and three points: three records | one record per centroid, min(k, N) records | not executed | EuclideanKMeans.SingleSeedGivesOneRecordPerPoint | EuclideanKMeans.IntendedKMeansProperties |
| src/lib/kmeans.ts:37-41 | `calculateMean` of an empty bucket reads `points[0].length` and throws | k = 2 and data whose first two points are equal: bucket 1 stays empty | an empty bucket keeps its centroid, as the cosine version does | not executed | EuclideanKMeans.EqualLeadingPointsThrow | EuclideanKMeans.IntendedKMeansProperties |
| src/app/api/social/twitter/import-saves/route.ts:43 | `media_keys[0]` is a key string, so its `preview_image_url` is always undefined and the thumbnail is null | a bookmark with one photo whose media has a preview url | the preview image of the media the first key names | not executed | TweetImport.ThumbnailAlwaysNull | TweetImport.Thumbnail |
| src/app/api/social/instagram/import-saves/route.ts:32 | `\|\|` applies to the whole concatenation, so a post without caption is titled "undefined" | a saved post whose caption is missing | 'Instagram Post' when there is no caption text | not executed | InstagramImport.MissingCaptionTitle | InstagramImport.Title |
| src/components/features/EditResourceModal.tsx:67 | `getCollectionResources(resource.id)` is keyed by the resource id, and throws unless some collection has that id | a resource kept in collection c1, moved to c2: the update is written, the lookup throws, nothing moves and the dialog stays open with the error | look up the collection that holds the resource, then move it | not executed | EditResource.LookupKeyedByResourceId | EditResource.SubmitMovesResource |
