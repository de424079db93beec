# Geotags from VK to CSV: a Dafny model of the page loop

The repository queries the VK `photos.search` endpoint for geotagged photos in a
circle and a time window. It asks for up to three pages of 1000 results. It keeps the
results that carry an upload date, a latitude and a longitude, and writes them to a
CSV file with the columns Date, Owner_ID, Photo_ID, Lat, Long.

This project models the two parts of `vk_geotags.py` that hold logic:

- the query-string map that `get_photos` builds (module `Photos`);
- the page-accumulation loop of `get_geotag_csv` (module `Geotags`).

The loop visits offsets 0, 1000, 2000. It requests a page at each offset. It appends
the complete items of the page to five parallel lists. It stops early on an empty page,
or once `offset + len(items)` reaches the `count` the server reports.

The server is an input. `fetch` stands for `get_photos` followed by `.json()`: a
total function from the arguments of one `get_photos` call (`Photos.PhotosArgs`) to
the decoded reply (`Json.Reply`). The loop's requests are those argument lists. The
query string each of them becomes is `Photos.Parameters`, keyed by `Photos.Key`,
whose `Name` is the text sent on the wire. Each JSON key lookup is a `Field`: the key is missing,
it maps to `null`, or it maps to a value. The loop reacts differently to each:

- A missing `response` or `items` key reads as an empty list.
- A null `items` reads as None, which the loop treats like an empty list.
- A null `response` raises AttributeError (`.get` on None).
- A missing `count` reads as 0.
- A null `count` raises TypeError in the comparison.

`Geotags.GetGeotagRows` is the loop. It keeps the five lists and appends to them
item by item. The inner loop over a page's items is the method
`Geotags.AppendComplete`. The loop is proved equal to `Geotags.Crawl`, a reference
definition of the same run over a list of offsets. `Crawl` computes what each page
makes of its reply (`Geotags.Page`: raise, stop, or go on). It then runs the control
flow over those page results (`Geotags.Drive`). The lemmas state what a
run does in terms of `Crawl`: which requests it sends, where it stops, which rows it
collects, and that it fails exactly when a page raises.

A reply without a `response` key is treated as an empty page (vk_geotags.py:88-92).
The run ends quietly, keeping the rows of the earlier pages (none if it is the first
page), and whatever error the server sent is never reported (`Geotags.FirstPageEmpty`,
`Geotags.EmptyPageIsFinal`). If VK rejects a request
(the docstring of `get_photos` allows only a radius of 10, 100, 800, 6000 or 50000),
its error object `{"error": …}` has no `response` key and takes this path.

## Model

| member | source | states |
|---|---|---|
| `Photos.Name` | vk_geotags.py:31-41 | Each key of the dictionary is sent under its literal name: q, lat, long, radius, start_time, end_time, count, offset, sort, v, access_token. |
| `Photos.NamesDistinct` | vk_geotags.py:31-41 | No two keys of the dictionary are sent under the same name. |
| `Photos.Parameters` | vk_geotags.py:30-41 | The map has exactly the keys q, lat, long, radius, start_time, end_time, count, offset, sort, v, access_token. Radius, count and offset are forwarded unchanged and unvalidated. |
| `Photos.DecodeParameters` | vk_geotags.py:30-41 | Reading the arguments back succeeds only on a map with exactly those eleven keys. |
| `Photos.ParametersRoundTrip` | vk_geotags.py:30-41 | Decoding the map recovers every argument and both configuration values (config.example.py:7, 11). |
| `Photos.DecodedParametersRebuild` | vk_geotags.py:30-41 | A map that decodes equals the map built from its decoded arguments. |
| `Photos.ParametersInjective` | vk_geotags.py:30-41 | Two requests are equal only if all their arguments and configuration values are equal. |
| `Geotags.ColumnStack` | vk_geotags.py:120 | There is one row per entry of the five lists. |
| `Geotags.StackUnstack` | vk_geotags.py:120 | Splitting rows into the columns Date, Owner_ID, Photo_ID, Lat, Long and stacking them again gives back the same rows. |
| `Geotags.UnstackStack` | vk_geotags.py:120 | Stacking five equal-length lists and splitting them again gives back the same lists. |
| `Geotags.Complete` | vk_geotags.py:103 | An item is kept exactly when its date, lat and long are all present and not null. Its id and owner_id play no part. |
| `Geotags.RowOf` | vk_geotags.py:96-108 | A kept item contributes date, owner_id, id, lat and long, in the column order of vk_geotags.py:120. A missing id or owner_id is carried as None. |
| `Geotags.Extract` | vk_geotags.py:95-108 | A page adds at most as many rows as it has items. |
| `Geotags.ExtractAppend` | vk_geotags.py:95-108 | Filtering commutes with concatenation, so the items' relative order is kept. |
| `Geotags.ExtractKeepsComplete` | vk_geotags.py:96-108 | Every item with a date, a lat and a long gives a row, even when its id or owner_id is absent. |
| `Geotags.ExtractOnlyComplete` | vk_geotags.py:103-108 | Every row is the row of some item of the page that had a date, a lat and a long. |
| `Geotags.ExtractAllComplete` | vk_geotags.py:95-108 | A page of complete items is kept whole, row k coming from item k. |
| `Geotags.Received` | vk_geotags.py:88 | Reading the items raises exactly when `response` is null, and then with AttributeError. When `response` and `items` are present, the list read is exactly the server's `items`. A non-empty list can only come from there; a missing key or a null `items` reads as empty. |
| `Geotags.TotalCount` | vk_geotags.py:112-113 | Reading the total raises exactly when `response` or `count` is null: AttributeError for a null `response`, TypeError for a null `count`. When `response` and `count` are present, the total is exactly the server's `count`. A non-zero total can only come from there; a missing key reads as 0. |
| `Geotags.Page` | vk_geotags.py:88-114 | One iteration of the outer loop: a reply either raises, adds rows and stops, or adds rows and goes on to the next offset. |
| `Geotags.PageCases` | vk_geotags.py:88-114 | A page raises exactly when reading its items raises, or when it is non-empty and reading the total raises. It then carries the exception of the read that failed (AttributeError for a null `response`, TypeError for a null `count`). An empty page stops with no rows. A page that does not raise adds the rows of its complete items. The run goes on exactly after a non-empty page whose offset plus item count is below a well-formed total. |
| `Geotags.Request` | vk_geotags.py:84-85 | The `get_photos` call for an offset passes the search's own query, centre, radius, time window and sort, a count of 1000, and that offset. |
| `Geotags.AppendComplete` | vk_geotags.py:95-108 | The inner loop keeps the five lists the same length. Row by row, they grow by exactly the rows of the page's complete items, in item order. |
| `Geotags.Drive` | vk_geotags.py:83-114 | A run over n page results asks for between 1 and n pages (none when n is 0). |
| `Geotags.Crawl` | vk_geotags.py:83-114 | A run over n offsets sends between 1 and n requests (none when n is 0). |
| `Geotags.GetGeotagRows` | vk_geotags.py:75-116 | The loop's rows (or its exception) and the requests it sends are exactly those of `Crawl` over offsets 0, 1000, 2000. Its invariant keeps the five lists the same length, and their rows are exactly the in-order rows of the pages handled so far. |
| `Geotags.DriveStops` | vk_geotags.py:88-114 | Every page asked for except the last one continues the run. A run that stops before the pages run out stops on a page that does not continue. |
| `Geotags.DriveOutcome` | vk_geotags.py:83-114 | A run fails exactly when its last page raised, and with that page's exception. Otherwise its rows are the in-order concatenation of the rows of the pages asked for. |
| `Geotags.CollectedBound` | vk_geotags.py:95-108 | Pages that each add at most their count of rows add at most the sum of the counts. |
| `Geotags.PageRowsBound` | vk_geotags.py:88-108 | One page adds at most as many rows as its reply carries items. |
| `Geotags.CrawlStops` | vk_geotags.py:88-114 | Every requested page except the last one continues the run. A run that stops before the offsets run out stops on a page that does not continue. |
| `Geotags.CrawlOutcome` | vk_geotags.py:83-114 | A run fails exactly when its last requested page raised, and with that page's exception. Otherwise its rows are the in-order concatenation of the rows of the pages requested. |
| `Geotags.RowsOverBound` | vk_geotags.py:95-108 | The rows of a list of pages are at most the items they carry. |
| `Geotags.RequestedPages` | vk_geotags.py:83-85 | One to three requests are sent, at offsets 0, 1000, 2000 in that order, each with count 1000 and the search's own parameters. |
| `Geotags.SentQueries` | vk_geotags.py:30-41 | Every query string sent has the eleven keys, the caller's radius unchecked, count 1000 and the offset of its page. |
| `Geotags.LastPageIsFinal` | vk_geotags.py:88-114 | A requested page that ends the run without raising is the last one requested. The run's rows are those of the earlier pages followed by its own. |
| `Geotags.EmptyPageIsFinal` | vk_geotags.py:88-92 | A requested page that is empty, or has no `response` or `items`, is the last one requested. It adds no rows. |
| `Geotags.CountReachedIsFinal` | vk_geotags.py:112-114 | A non-empty page whose offset plus item count reaches the reported total is the last one requested. Its rows are added. |
| `Geotags.ContinuesOnlyWhenShort` | vk_geotags.py:88-114 | A next page is requested only after a non-empty page whose offset plus item count is below a non-null reported total. |
| `Geotags.MissingCountStopsAfterFirst` | vk_geotags.py:112-114 | A non-empty first page without `count` is the only request, and its rows are the result. |
| `Geotags.FirstPageEmpty` | vk_geotags.py:88-92 | An empty first page, or one without a `response` key, gives no rows and a single request. |
| `Geotags.ThreeFullPages` | vk_geotags.py:83-114 | Three pages of 1000 items with a total of 3000 give three requests and the rows of all three pages, in request order. |
| `Geotags.RowsWithinItems` | vk_geotags.py:95-108 | A run's rows never outnumber the items received on the pages it requested. |
| `Geotags.AtMostThreePages` | vk_geotags.py:82-85 | When no page holds more than 1000 items, a run yields at most 3000 rows. |

## Left out

- HTTP GET through `requests` and `response.json()` (vk_geotags.py:42-44, 86): network I/O and a foreign library. The decoded reply is the `fetch` input instead. `fetch` is a total function, so it never raises. A transport failure in `requests.get` or a body that `.json()` cannot parse would raise in the source; neither is modelled. The kinds of reply anomaly modelled are the missing and null keys listed above. A reply whose values have other JSON types (a string `count`, an item that is not an object) is not modelled.
- `time.sleep(0.5)` (vk_geotags.py:116): timing only, with no effect on the result.
- The conversion of the time tuples to Unix seconds (vk_geotags.py:72-73): a foreign library call. It reads the naive datetime in the machine's local time zone, despite the UTC claim of the docstring. `Search` takes the converted seconds.
- `np.savetxt` (vk_geotags.py:119-124): float formatting with `%f` and file output. Only the column order of each row is modelled (`Row`, `ColumnStack`). The model keeps rows whose id or owner_id is absent, as the loop does. In Python, `'%f' % None` raises TypeError. So `np.savetxt` would raise on such a row, and no complete file would be written. The model stops at the rows handed to `np.savetxt` and does not capture that failure.
- The module-level imports of `requests`, `time`, `numpy` and `datetime`: vk_geotags.py as given imports only the config constants. Loading the module succeeds, but every call of `get_geotag_csv` then raises NameError at vk_geotags.py:72 (`datetime`), before any request is sent. The model assumes the imports are present.
- Python floats are modelled as `real`. The loop only copies coordinates and tests them for presence, so rounding plays no part.
- main.py (fixed example arguments, prints, one call) and the configuration file (two string constants, modelled as `Photos.Config`).
