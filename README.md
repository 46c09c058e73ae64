# raw-notes in Dafny

A model of the logic of `raw-notes`, a Next.js note-taking page that keeps plain-text
notes in the browser's `localStorage` and can export the current note as a Notion page.
Four pieces are modelled, each as its own module:

- `HomePage` (`home_page.dfy`, from `app/page.tsx`): the note collection. A class `Home`
  holds the note list, the cursor `currentNoteIndex`, the editor `text`, the
  `localStorage` map, the dialog flag and the "configured" flag. Each event handler
  (text change, New, Next, Delete, saving the API dialog, Post) is one method, an atomic
  step. The invariant `Valid()` says: there is at least one note, the cursor is on a
  note, the editor shows that note, the saved `'notes'` list, when present, equals
  the list in memory, and once both credentials are saved the Notion helper holds the
  saved key. Every handler keeps it.
- `AuthRoute` (`auth_route.dfy`, from `app/api/auth/route.ts`): the credential endpoint.
  POST validates in source order (missing fields, then `^[0-9a-f]{32}$`) and sets exactly
  two HTTP-only cookies. GET reports the database id and never the key. DELETE clears
  both cookies. The reply under construction is a class whose cookie map is changed in
  place by `SetCookie` and `DeleteCookie`. The regular expression is modelled as a small
  matcher, proved equal to its plain meaning.
- `ExportRoute` (`export_route.dfy`, from `app/api/notion/route.ts`): how the Notion
  create-page request is built. The title is the first 50 characters plus `...`. The
  body has one paragraph per `'\n'`-separated line. `SplitLines` and `JoinLines` are
  proved inverse in both directions. The reply is success or a fixed 500.
- `NotionClient` (`notion_client.dfy`, from `app/utils/notion.ts`): the module-level API
  key and the guard in `postToNotion`. `fetch` is a function parameter (an oracle).
- `Wrappers` (`wrappers.dfy`): `Option` for `null`/`undefined`, `Result` for thrown errors.

The page's `localStorage` credentials (sent in the request body) and the endpoint's
cookies are not connected anywhere in this code. They are modelled as independent
components.

Inputs from outside the code become parameters: `NEXT_PUBLIC_NOTION_API_KEY` and
`NODE_ENV`, the initial contents of `localStorage`, the `fetch` reply, and the outcome of
Notion's `pages.create`.

Some features a note app of this kind might have are not in this code, so they are not
in the model:
- notes are plain strings, with no per-note title;
- there is no block-count limit and no debounce;
- there is no post-and-delete;
- the export route does not validate the database id and runs no pre-flight check;
- the page title is the first 50 characters followed by `...`, not a prefix marker.

## Model

| member | source | states |
|---|---|---|
| `HomePage.Home.constructor` | app/page.tsx:8-37 | the module-level `initializeNotion(env \|\| '')` and the mount effect: with no saved list the notes are `[""]` and the text is `""`; otherwise the notes are the saved list and the text is its first entry, or `""` when it is empty; the cursor is 0 and storage is untouched; the helper key is the saved key when both credentials are truthy, else the env key or `""`; `Valid()` holds whenever the saved list is absent or non-empty |
| `HomePage.Home.TextChange` | app/page.tsx:47-56 | only the entry at the cursor changes, to the new text; the length, the cursor and all other entries are unchanged; the text equals the new value; the `'notes'` slot holds the whole updated list; `Valid()` is kept |
| `HomePage.Home.NewNote` | app/page.tsx:58-65 | exactly one `""` is appended; the cursor becomes the old length (the new last index); the text is `""`; the list is saved; `Valid()` is kept |
| `HomePage.Home.NextNote` | app/page.tsx:67-72 | the cursor becomes `NextIndex` of the old cursor, and the text is that note; the list and storage are unchanged; `Valid()` is kept |
| `HomePage.NextIndex` | app/page.tsx:68 | `(cursor + 1) % length` stays in range: it is `cursor + 1`, or 0 after the last note |
| `HomePage.AdvanceWithinLap` | app/page.tsx:67-70 | within one lap, `k` presses of Next move the cursor `k` places, wrapping once past the end |
| `HomePage.AdvanceCompose` | app/page.tsx:67-70 | `a` presses followed by `b` presses land where `a + b` presses do |
| `HomePage.NextCycles` | app/page.tsx:67-70 | pressing Next `length` times returns the cursor to where it started |
| `HomePage.NextPeriodic` | app/page.tsx:67-70 | the cursor after `k + length` presses is the cursor after `k` presses |
| `HomePage.FilterOutIndexRemoves` | app/page.tsx:83 | filtering out index `i` removes exactly the entry at `i` and keeps the others in order: `notes[..i] + notes[i+1..]` |
| `HomePage.Home.DeleteNote` | app/page.tsx:74-92 | with at most one note, exactly `[""]` is in memory and saved, and the text is `""`; with more, exactly the note at the cursor is removed (length drops by one), the cursor becomes `cursor - 1`, or 0 when it was 0, the text is the note now at the cursor, and the list is saved; `Valid()` is kept |
| `HomePage.Home.ApiConfig` | app/page.tsx:94-100 | both credentials are saved as given, without validation; the helper key becomes the given key; the page is marked configured and the dialog closed; the notes are unchanged |
| `HomePage.Home.PostToNotion` | app/page.tsx:102-118 | when either saved credential is missing or empty, the dialog opens and nothing is sent; otherwise a request is always sent, carrying the editor text, the saved database id, no title and the saved key (the invariant ties the helper's key to the saved one), and the alert reports the reply's `ok`; in every case the notes, cursor, text and storage are unchanged |
| `NotionClient.Client.constructor` | app/utils/notion.ts:1 | the key starts as `null` |
| `NotionClient.Client.Initialize` | app/utils/notion.ts:3-5 | the key becomes the argument; the last call wins |
| `NotionClient.Client.Post` | app/utils/notion.ts:7-30 | no request is made exactly when the key is `null` or `''`, and then the call fails with "Notion API key not initialized"; otherwise the request carries the given database id, content and title and the current key; a non-ok reply fails with "Failed to post to Notion", and an ok reply returns the parsed body |
| `AuthRoute.MatchHexRunCorrect` | app/api/auth/route.ts:17 | the anchored matcher for `[0-9a-f]{n}` accepts exactly the strings of length `n` made only of `0-9a-f`, in both directions |
| `AuthRoute.MatchesDatabaseIdPattern` | app/api/auth/route.ts:17 | `^[0-9a-f]{32}$` holds exactly for 32 lower-case hex characters |
| `AuthRoute.Validate` | app/api/auth/route.ts:9-23 | a missing or empty key or id is rejected as required, checked before the format; with both present, the id is rejected as badly formatted exactly when it is not 32 lower-case hex characters; it is accepted exactly when neither applies |
| `AuthRoute.MalformedIds` | app/api/auth/route.ts:17-23 | an id of any other length, or one containing upper-case hex, is refused as badly formatted, not as missing |
| `AuthRoute.Response.Json` | app/api/auth/route.ts:26 | a new reply has the given body and status and no cookie updates |
| `AuthRoute.Response.SetCookie` | app/api/auth/route.ts:29-44 | sets the named cookie to the value and options and changes nothing else |
| `AuthRoute.Response.DeleteCookie` | app/api/auth/route.ts:84-85 | clears the named cookie and changes nothing else |
| `AuthRoute.Post` | app/api/auth/route.ts:4-54 | an unparseable body gives 500 "Failed to store credentials"; a rejection gives 400 with the "required" or "Invalid database ID format" error, and no cookies; success gives 200 `{success: true}` and exactly two cookies, `notion_api_key` set to the key and `notion_database_id` set to the id, each httpOnly, sameSite strict, path `/`, maxAge 31536000, and secure exactly when `NODE_ENV` is `production` |
| `AuthRoute.Get` | app/api/auth/route.ts:56-69 | 404 "No credentials found" exactly when either cookie is absent or empty; otherwise 200 with the database id; the body has no field for the key |
| `AuthRoute.GetHidesApiKey` | app/api/auth/route.ts:62-69 | changing the stored key's (non-empty) value never changes GET's reply |
| `AuthRoute.Delete` | app/api/auth/route.ts:79-87 | 200 `{success: true}` and both cookies cleared, nothing else |
| `AuthRoute.ApplyUpdates` | app/api/auth/route.ts:29-44 | the browser's cookie store after a reply: set cookies get the new value, cleared ones are gone, all other cookies are untouched |
| `AuthRoute.PostThenGet` | app/api/auth/route.ts:26-69 | after the cookies of a successful POST are stored, GET answers 200 with the posted database id |
| `AuthRoute.DeleteThenGet` | app/api/auth/route.ts:62-87 | after the cookies of DELETE are applied, GET answers 404, whatever was stored before |
| `ExportRoute.SplitLines` | app/api/notion/route.ts:24 | `split('\n')` yields at least one line, and no line contains `'\n'` |
| `ExportRoute.SplitLinesCount` | app/api/notion/route.ts:24 | the number of lines is the number of `'\n'` plus one, blank lines included |
| `ExportRoute.JoinSplitLines` | app/api/notion/route.ts:24 | joining the lines with `'\n'` gives back the content exactly |
| `ExportRoute.SplitJoinLines` | app/api/notion/route.ts:24 | splitting the join of newline-free lines gives back those lines, so the two are inverses |
| `ExportRoute.PageTitle` | app/api/notion/route.ts:18 | the title is a prefix of the content, as long as `min(50, length)`, followed by `...`; it is at most 53 characters, and it is the content plus `...` when the content has at most 50 characters |
| `ExportRoute.Paragraphs` | app/api/notion/route.ts:24-37 | one paragraph per line, each holding that line's text |
| `ExportRoute.ParagraphsRoundTrip` | app/api/notion/route.ts:24-37 | there are as many paragraphs as `'\n'` plus one, and joining their texts with `'\n'` reproduces the content |
| `ExportRoute.BuildPage` | app/api/notion/route.ts:6-37 | there is a page request exactly when `content` is present; its parent is the given `databaseId`, unvalidated, its auth is the given `apiKey`, and its title and children come from the content |
| `ExportRoute.HandlePost` | app/api/notion/route.ts:4-44 | 200 `{success: true, data}` exactly when the body parses, has content and `pages.create` resolves, and `data` is the created page; every other path gives 500 with "Failed to post to Notion" |
| `ExportRoute.TitleIgnored` | app/api/notion/route.ts:6-18 | a `title` in the request body changes neither the page request nor the reply |

## Left out

- Rendering, focus effects, the buttons and the configuration dialog component are left out. They are UI only. The dialog just passes its two required inputs to `ApiConfig`. Opening and closing it by button is not modelled beyond the `showApiModal` flag.
- React runs `setState` updates asynchronously. Each handler is modelled as one atomic step that reads the state as it was before the handler ran.
- `JSON.parse` and `JSON.stringify` are modelled as identity. `localStorage` maps keys to a parsed value: a note list or a string. `HomePage.Home.constructor` requires the stored values to have the shapes this page writes (`WellTyped`). The invariant is guaranteed only when a saved list is non-empty. A saved `[]` loads an empty list, and the constructor's contract states that case without claiming `Valid()`.
- Request fields holding non-string JSON values (numbers, objects) are outside the model. A field is either a string or missing.
- Strings are `seq<char>`. JavaScript's `slice(0, 50)` counts UTF-16 code units, so with characters outside the Basic Multilingual Plane the title model can differ from the real title.
- The Notion client library (`new Client`, `pages.create`), `fetch`, HTTP framing and the `cookies()` API are external. They are modelled as oracles and as plain maps.
- `NotionClient.Client.Post`: a `fetch` that rejects (a network failure) and an ok reply whose body is not JSON (`response.json()` rejecting) both make `postToNotion` reject with another error; the oracle only yields ok or not ok, so these failures are not modelled.
- `async`/`await`, `console.error` and `alert` are left out; the alert text is returned as the result of `PostToNotion`. Reading `process.env` is left out; the values are parameters.
- The catch branches of GET and DELETE (`app/api/auth/route.ts:70-76`, `88-94`) are left out. Nothing in the modelled code can throw there: in GET only the external `cookies()` call could, in DELETE only `NextResponse` internals could.
- `AuthRoute.ApplyUpdates`: it stands for the browser storing cookies. It keeps only cookie names and values; expiry, path, `secure` and `sameSite` are not applied.
- `HomePage.Home.TextChange`: writing at an index past the end of a JavaScript array grows it. The invariant keeps the cursor in range, so this case cannot arise and is not modelled.
