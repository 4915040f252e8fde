# kidsnote-backup, modelled in Dafny

`knbackup` is a command-line tool. It logs in to the Kidsnote service, a
daycare-to-parent messaging platform, and backs up each child's daily
reports ("알림장") to disk:

- the text of each report, written out as a text file and as a rendered image;
- each attached photo, downloaded next to them.

Its SDK (`kidsnote-sdk`) keeps an OAuth session. It exchanges a password or
a refresh token for a token and downloads images with a skip-if-present,
retry-on-send-failure policy. The tool keeps the last user id and refresh
token in a TOML profile under `~/.knbackup`.

This project models the decision-making of the tool and of the SDK:

- **The `download` command** (`download.dfy`, module `DownloadCommand`):
  - the profile merge and the login-mode choice;
  - the per-child center map and the date filter;
  - the cursor-driven page loop with its 10000-iteration fuse;
  - handing each non-empty page to the downloader;
  - the children loop, where one child's error does not stop the others.
- **Report planning** (`report_files.dfy`, module `ReportFiles`):
  - the output paths and file names;
  - the text normalisation (`replace("  ", " ")`, `lines`, `trim`);
  - the list of renders and downloads a report asks for.
- **The `login` command** (`login.dfy`, module `LoginCommand`).
- **The saved profile** (`config.dfy`, module `Config`): `~/` expansion, `from_file`, `set_default` and `save`.
- **The session store** (`options.dfy`, module `Options`) and **the token exchange** (`auth.dfy`, module `Auth`).
- **Error codes** (`error_types.dfy`, module `ErrorTypes`).
- **`download_image`** (`resource.dfy`, module `Resource`).
- **The canvas layout of `text_to_image`** (`image_tool.dfy`, module `ImageTool`).
- **The `RUST_LOG` level mapping** (`logger.dfy`, module `Logger`).

Shared helpers live in four modules:

- `Wrappers`: Option and Result.
- `Text`: trimming, digits and ASCII lower-casing.
- `Fs`: a file system with directories and files of bytes with access and modification times, as a class whose methods change it in place.
- `Records` and `Ints`: the API records and fixed-width integers.

The outside world is supplied as parameters:

- the token POST is an `Exchange`: encoding failed, transport failed, or a status with a body that parsed or not;
- the k-th `get_reports` reply of a child is `replies(k)`;
- the sends of an image download are a sequence of outcomes: send error, body error, or body bytes;
- I/O failures are flags in `IoFaults`;
- the home directory and the current time are explicit arguments.

Stateful code is modelled as classes whose methods change their fields:

- `KidsnoteOptions`, `KidsnoteAuthSdk`, `KnBackupConfig`, `DownloadArgs`, `LoginArgs`, `FileSystem` and `RgbImage`.

Each such method is tied to a specification function:

- `DownloadSpec` for `download_image`;
- `PageWalk` for the page loop;
- `Perform` and `PerformBatches` for carrying out a page's actions;
- `ChildrenDisk` and `ChildrenResults` for the children loop.

The properties of those functions are proved as lemmas.

Where the source files disagree with one another, the model follows the call sites in `knbackup/src/command/download.rs`:

- a report's `center` is an optional id and its `content` is optional text. The record file `lib/kidsnote-sdk/src/child/datatypes.rs` declares them as plain values.
- `get_reports` takes a query record (page cursor, start date, end date, time zone). That query type is not part of this model's sources, and `lib/kidsnote-sdk/src/child/mod.rs` takes only the child id.

## Model

| member | source | states |
|---|---|---|
| ErrorTypes.FromU16 | lib/kidsnote-sdk/src/auth/error_types.rs:33-38 | a value maps to a named code exactly when it is one of the five discriminants 0, 1, 401, 404, 0xfffe, and then to the code with that discriminant; every other value maps to UnknownError |
| ErrorTypes.RoundTrip | lib/kidsnote-sdk/src/auth/error_types.rs:20-38 | `from_u16(c.as_u16()) == c` for every code |
| ErrorTypes.AsU16Injective | lib/kidsnote-sdk/src/auth/error_types.rs:20-32 | distinct codes have distinct discriminants |
| ErrorTypes.Desc | lib/kidsnote-sdk/src/auth/error_types.rs:39-57 | the description is "OK" exactly for the code whose value is 0 |
| ErrorTypes.DescInjective | lib/kidsnote-sdk/src/auth/error_types.rs:39-57 | each code has its own description |
| ErrorTypes.DisplayIdentifies | lib/kidsnote-sdk/src/auth/error_types.rs:60-64 | two codes print the same text exactly when they are the same code, and a code prints "OK" exactly when its value is 0 |
| ErrorTypes.Message | lib/kidsnote-sdk/src/auth/error_types.rs:4-16 | a message begins with "Error: " exactly when the error is a general one, whose text is the rest of the message; every other message begins with "ErrorCode: " |
| ErrorTypes.DisplayPrefixFree | lib/kidsnote-sdk/src/auth/error_types.rs:39-64 | no code's printed description begins with another code's |
| ErrorTypes.MessageIdentifies | lib/kidsnote-sdk/src/auth/error_types.rs:4-16 | two errors with the same message are of the same kind and carry the same code and the same text; only the `&'static str` and `String` variants print alike |
| Options.KidsnoteOptions.constructor | lib/kidsnote-sdk/src/options.rs:10-18 | the host is "https://kapi.kidsnote.com"; the client id is the given one, or the built-in one when none is given; there is no session, so the session getter fails with Unauthorized |
| Options.KidsnoteOptions.SetClientId | lib/kidsnote-sdk/src/options.rs:20-22 | only the client id changes, and its getter returns the new value |
| Options.KidsnoteOptions.SetHost | lib/kidsnote-sdk/src/options.rs:24-26 | only the host changes, and its getter returns the new value |
| Options.KidsnoteOptions.GetDefaultSessionOrError | lib/kidsnote-sdk/src/options.rs:44-50 | fails with Unauthorized exactly when no session is stored; otherwise returns the stored session |
| Options.KidsnoteOptions.SetDefaultSession | lib/kidsnote-sdk/src/options.rs:52-60 | the stored session carries the reply's five fields, the getter returns it, and host and client id are unchanged |
| Options.KidsnoteOptions.RemoveDefaultSession | lib/kidsnote-sdk/src/options.rs:62-64 | no session is left, the getter fails with Unauthorized, and host and client id are unchanged |
| Options.SessionKeepsReply | lib/kidsnote-sdk/src/options.rs:52-60 | a session determines the token reply it was made from, since all five fields are kept |
| Auth.FormsDiffer | lib/kidsnote-sdk/src/auth/mod.rs:72-89 | the password form has exactly the keys grant_type, username, password and scope; the refresh form has exactly grant_type, refresh_token and scope; their grant types differ; both scopes are "read write" |
| Auth.KidsnoteAuthSdk.constructor | lib/kidsnote-sdk/src/auth/mod.rs:17-21 | the SDK works on the given options |
| Auth.KidsnoteAuthSdk.OAuthToken | lib/kidsnote-sdk/src/auth/mod.rs:24-69 | an encoding failure returns `GeneralError("serde_urlencoded")` with no request sent and the session unchanged; otherwise one POST goes to host + "/o/token/" with "Basic " + client id. A 2xx reply with a parsed body is returned and stored as the session. A parse failure, a non-2xx status or a transport failure clears the session and returns the matching error. Host and client id never change |
| Auth.KidsnoteAuthSdk.Login | lib/kidsnote-sdk/src/auth/mod.rs:72-80 | sends the password form unless encoding fails; succeeds exactly when the exchange does, storing the token; on failure the session is cleared, or unchanged when nothing was sent |
| Auth.KidsnoteAuthSdk.RefreshToken | lib/kidsnote-sdk/src/auth/mod.rs:83-90 | the same for the refresh-token form |
| Config.Fill | knbackup/src/command/download.rs:93-100 | a value the user gave is kept; a missing one takes the saved one |
| Config.ResolvePath | knbackup/src/kidsnote/mod.rs:22-27 | a path without "~/" is used as given; with it, the rest is joined to the home directory, or to "./" when that is unknown |
| Config.LoadDefault | knbackup/src/kidsnote/mod.rs:21-36 | the profile is the one in the file at the resolved path; a missing or unparseable file gives no profile |
| Config.SaveThenLoad | knbackup/src/kidsnote/mod.rs:22-27 | `from_file` and `save` resolve a path with the same rule, so loading after an undisturbed save gives back the saved profile |
| Config.KnBackupConfig.FromFile | knbackup/src/kidsnote/mod.rs:21-36 | `from_file`: the profile is `LoadDefault` of the path |
| Config.KnBackupConfig.SetDefault | knbackup/src/kidsnote/mod.rs:38-43 | the profile becomes exactly the given user id and refresh token |
| Config.KnBackupConfig.Save | knbackup/src/kidsnote/mod.rs:45-73 | the files become `Saved` at the resolved path: the profile is written unless creating the file fails; a failed write leaves the created file empty; no other file changes |
| Logger.LevelFor | knbackup/src/logger.rs:10-22 | an unset variable gives Info; otherwise the level is the one whose name is the lower-cased value, or Info when no name matches |
| Logger.NamesSelect | knbackup/src/logger.rs:12-17 | each level is selected by its own name; any level other than Info is selected exactly by values that lower-case to its name |
| Logger.IgnoresCase | knbackup/src/logger.rs:11 | a value and its lower-cased form select the same level |
| Logger.UnknownIsInfo | knbackup/src/logger.rs:18 | any value that is none of the six names selects Info |
| ImageTool.Utf8Len | lib/kidsnote-sdk/src/tool/image_tool.rs:19-23 | the byte length of a string is between one and four bytes per character |
| ImageTool.LongestLineIsMax | lib/kidsnote-sdk/src/tool/image_tool.rs:19-24 | the longest length bounds the title and every content line, and is equal to one of them |
| ImageTool.MaxLen | lib/kidsnote-sdk/src/tool/image_tool.rs:19-24 | the loop computes the largest byte length among the title and the content lines |
| ImageTool.TextFitsCanvas | lib/kidsnote-sdk/src/tool/image_tool.rs:26-27 | a canvas of width 8·max_len + 20 and height 42·(lines + 1) + 50 holds the title and every line at 8 px per byte between 10 px margins, and every content row's 24-pixel height lies above the bottom edge |
| ImageTool.RgbImage.constructor | lib/kidsnote-sdk/src/tool/image_tool.rs:29 | a new width × height image whose pixels are all black |
| ImageTool.RgbImage.FillWhite | lib/kidsnote-sdk/src/tool/image_tool.rs:32-34 | after the fill loop every pixel is white |
| ImageTool.TextRows | lib/kidsnote-sdk/src/tool/image_tool.rs:41-68 | the title is drawn at (10,10), the author line "작성자 : " + author at (10,40), and content line k at (10, 90 + 36·k), in that order |
| ImageTool.Canvas | lib/kidsnote-sdk/src/tool/image_tool.rs:19-68 | a fresh white canvas of the computed size, with those draws |
| ImageTool.TextToImage | lib/kidsnote-sdk/src/tool/image_tool.rs:12-87 | the canvas and draws as above. A missing parent directory is created, and a failure is ignored. A failed save panics, leaving no file when it could not be created and an empty one when the write failed; otherwise the file holds the encoded image, both its times are the given time (or stay at the creation time when `set_file_times` fails, which is ignored), and the result is `Ok(())` |
| Ints.I32AsU64 | lib/kidsnote-sdk/src/resource/mod.rs:53 | `file_size as u64` keeps a non-negative value and sends a negative one to 2^64 + value, which is at least 2^63 |
| Resource.FirstReply | lib/kidsnote-sdk/src/resource/mod.rs:68-107 | the loop ends at the first send that is not a send error, or after three send errors; only send errors are retried |
| Resource.NegativeSizeNeverSkips | lib/kidsnote-sdk/src/resource/mod.rs:51-55 | with a negative `file_size`, a file shorter than 2^63 bytes is never skipped |
| Resource.DownloadBeforeFetch | lib/kidsnote-sdk/src/resource/mod.rs:43-66 | a missing parent directory is created first and a failure is returned; a metadata failure is returned; a file whose length equals `file_size as u64` gives `Ok(false)`; in these cases no request is sent and no file changes |
| Resource.DownloadFetch | lib/kidsnote-sdk/src/resource/mod.rs:68-110 | one to three requests; a run stops on a send error only at the third attempt, and three send errors give "no call" with no file changed; a body error returns at once; the first body is written whatever its status, with both times set to `file_time`, and the result is `Ok(true)` with no other file changed |
| Resource.StoreBody | lib/kidsnote-sdk/src/resource/mod.rs:73-93 | creating, writing and stamping the file changes the files exactly as `Store` says and leaves the directories alone |
| Resource.DownloadImage | lib/kidsnote-sdk/src/resource/mod.rs:24-111 | the result, the number of requests, the directories and the files are those of `DownloadSpec`, and every request goes to the image's URL |
| ReportFiles.DateStamp | knbackup/src/command/download.rs:362 | `%Y%m%d` is exactly eight digits |
| ReportFiles.BaseDir | knbackup/src/command/download.rs:351-357 | the report directory is output_dir / "키즈노트 " + child / "알림장" / "YYYY-MM" |
| ReportFiles.TextFile | knbackup/src/command/download.rs:359-366 | the text file lies directly in the report directory |
| ReportFiles.ImageFile | knbackup/src/command/download.rs:368-375 | the rendered image lies directly in the report directory |
| ReportFiles.StripTrailingShape | knbackup/src/command/download.rs:427 | what `Path::components` skips at the end of a name is a run of separators and dots, and what remains ends neither in a separator nor in a "." component |
| ReportFiles.LastComponent | knbackup/src/command/download.rs:427 | `Path::file_name`, taken after the trailing separators and "." components are skipped, is a suffix of what remains, holds no separator and is never empty, "." or ".." |
| ReportFiles.TrailingSeparatorIgnored | knbackup/src/command/download.rs:427-431 | a trailing "/" or "/." changes neither the file name nor the extension, so "photo.jpg/" keeps the extension "jpg" |
| ReportFiles.Extension | knbackup/src/command/download.rs:428-430 | `Path::extension` is what follows the last dot of the file name, with no dot or separator; there is none when the name has no dot other than a leading one |
| ReportFiles.AttachmentFile | knbackup/src/command/download.rs:432-441 | each attachment lies directly in the report directory |
| ReportFiles.ExtensionOfPlainName | knbackup/src/command/download.rs:427-431 | "stem.ext" has extension "ext", which the attachment keeps |
| ReportFiles.NoExtensionMeansPng | knbackup/src/command/download.rs:427-431 | a name with no dot, or with only a leading one, has no extension, and the attachment is saved as ".png" |
| ReportFiles.StemsSeparate | knbackup/src/command/download.rs:359-375 | for one child and source type, equal stems followed by non-digits mean the same date, the same report id and the same tail |
| ReportFiles.FileKindsNeverCollide | knbackup/src/command/download.rs:359-441 | a text file, a rendered image and an attachment never share a path |
| ReportFiles.ReportFilesDistinct | knbackup/src/command/download.rs:359-375 | two reports share a text (or image) file only when they have the same date stamp and report id |
| ReportFiles.AttachmentsDistinct | knbackup/src/command/download.rs:432-441 | two attachments share a path only when they have the same date stamp, report id, image id and extension |
| ReportFiles.ReplaceDoubleSpace | knbackup/src/command/download.rs:379 | the replacement never lengthens the text and never empties a non-empty one |
| ReportFiles.ReplaceHalvesSpaceRuns | knbackup/src/command/download.rs:379 | one left-to-right pass turns a run of n spaces into (n + 1) / 2, so runs are not fully collapsed |
| ReportFiles.ReplaceKeepsNonSpaces | knbackup/src/command/download.rs:379 | the replacement keeps every non-space character, in order |
| ReportFiles.Lines | knbackup/src/command/download.rs:380 | `lines` gives lines without line feeds, and no lines exactly for the empty text |
| ReportFiles.LinesRoundTrip | knbackup/src/command/download.rs:380 | for text without carriage returns that ends with a line feed (or is empty), joining the lines back with line feeds gives the text |
| ReportFiles.TrimEach | knbackup/src/command/download.rs:380-382 | each line is replaced by its trimmed self, and the count is kept |
| ReportFiles.NormalizedLines | knbackup/src/command/download.rs:377-383 | every normalised line is trimmed and has no line feed, and a non-blank text yields at least one line, so the "no lines" check never fires after the blank check |
| ReportFiles.RenderIffNotBlank | knbackup/src/command/download.rs:377-383 | the text is rendered exactly when it is present and not all whitespace |
| ReportFiles.ReportPlan | knbackup/src/command/download.rs:377-475 | in test mode a report asks for nothing. Otherwise it asks for the text and image renders of the normalised lines, exactly when the text is not blank, then one download per attachment in order, stamped with the creation time in whole seconds. Every target lies in the report directory |
| Text.TrimBlank | knbackup/src/command/download.rs:378 | a text trims to nothing exactly when it is all whitespace |
| DownloadCommand.DownloadArgs.constructor | knbackup/src/command/download.rs:78-90 | no credentials or dates; the default config path and output directory; test mode off |
| DownloadCommand.DownloadArgs.Copy | knbackup/src/command/download.rs:131 | the clone has every field of the original |
| DownloadCommand.DownloadArgs.UpdateProfile | knbackup/src/command/download.rs:93-100 | the refresh token and user id are filled from the profile only where absent; no other field changes |
| DownloadCommand.CenterMapKeys | knbackup/src/command/download.rs:203-207 | the map's keys are exactly the enrolled center ids |
| DownloadCommand.CenterMapFirstAt | knbackup/src/command/download.rs:204-206 | an enrollment whose center id no earlier enrollment has gives that center its name |
| DownloadCommand.CenterMapFirstWins | knbackup/src/command/download.rs:203-207 | when several enrollments share a center id, the first one's name is kept (`or_insert`) |
| DownloadCommand.BuildCenterMap | knbackup/src/command/download.rs:203-207 | the loop builds `CenterMap` of the enrollments |
| DownloadCommand.CenterNameFor | knbackup/src/command/download.rs:293-295 | the name is always present: the mapped name when the report's center is in the map, otherwise "" |
| DownloadCommand.DateFilterRules | knbackup/src/command/download.rs:261-274 | the query starts with no cursor and has both dates or neither. A given date is never dropped, and each query date is one of the given ones. The time zone is "Asia/Seoul" exactly when a date was given |
| DownloadCommand.Sources | knbackup/src/command/download.rs:292-309 | one source per report, in order, each built from its own report |
| DownloadCommand.CollectSources | knbackup/src/command/download.rs:291-311 | the loop builds `Sources` of the page's reports |
| DownloadCommand.WalkQueries | knbackup/src/command/download.rs:276-335 | the walk sends at least one and at most 10001 requests; it starts with the filtered query, and each later query carries the cursor of the successful reply before it |
| DownloadCommand.WalkKeepsFilter | knbackup/src/command/download.rs:261-335 | every query of the walk has the first query's dates and time zone |
| DownloadCommand.WalkStops | knbackup/src/command/download.rs:287-334 | the walk stops at the first failed reply, at the first page with no cursor (an empty page has none), or when the fuse blows. It fails exactly when its last reply failed, with that error |
| DownloadCommand.WalkCount | knbackup/src/command/download.rs:290-313 | a successful walk returns the number of reports it handed over, and it never hands over an empty batch |
| DownloadCommand.WalkBatches | knbackup/src/command/download.rs:290-316 | each non-empty page the walk fetched is handed to the downloader exactly once, as its reports' sources, in page order, and nothing else is |
| DownloadCommand.EveryActionCarriedOut | knbackup/src/command/download.rs:426-468 | one result per download and one hand-over per render, whatever the earlier downloads returned |
| DownloadCommand.PerformPrefix | knbackup/src/command/download.rs:426-468 | later actions only add results and hand-overs after those of the earlier ones |
| DownloadCommand.DownloadResultAt | knbackup/src/command/download.rs:426-468 | the k-th result is what `download_image` returns for the k-th download, run on the disk the earlier actions left and with that download's own environment |
| DownloadCommand.PerformSnoc | knbackup/src/command/download.rs:343-481 | carrying out one more action extends the earlier actions by one step |
| DownloadCommand.PerformStep | knbackup/src/command/download.rs:384-468 | one action: a download changes the disk as `download_image` does, and a render is handed over |
| DownloadCommand.PerformActions | knbackup/src/command/download.rs:343-481 | the loop over a batch's actions leaves the disk, the download results and the renders as `Perform` says |
| DownloadCommand.StepSourceDownload | knbackup/src/command/download.rs:342-482 | `step_child_report_sourece_download` carries out the actions of the batch's reports, report after report |
| DownloadCommand.PerformNextBatch | knbackup/src/command/download.rs:312-313 | handing one more batch carries out its actions after those of the earlier batches, numbering the downloads on |
| DownloadCommand.HandOverPage | knbackup/src/command/download.rs:290-313 | a non-empty page's sources are built and carried out after those of the earlier pages |
| DownloadCommand.TakePage | knbackup/src/command/download.rs:287-316 | a successful page adds one to the count per report, and its batch (none for an empty page) is carried out after those of the earlier pages |
| DownloadCommand.StepChildReportDownload | knbackup/src/command/download.rs:248-340 | the page loop's queries and result are those of `PageWalk` from the filtered query. The disk, the download results and the renders are those of carrying out the walk's batches in order |
| DownloadCommand.ChildErrorsIsolated | knbackup/src/command/download.rs:201-214 | every child gets its walk, and each child's result is its own walk's result, whatever the other children's walks returned |
| DownloadCommand.ChildrenResultsLength | knbackup/src/command/download.rs:201-214 | one result per child |
| DownloadCommand.ChildResultAt | knbackup/src/command/download.rs:209-213 | child i's result is its own walk's result |
| DownloadCommand.StepChildren | knbackup/src/command/download.rs:201-214 | the children loop leaves the disk as `ChildrenDisk` and collects `ChildrenResults` |
| DownloadCommand.Next | knbackup/src/command/download.rs:153-219 | the login mode follows the arguments, and a failed refresh is not followed by a password login. "Invalid args" is logged exactly when no token was obtained. The profile is saved, and every child backed up, exactly when a token was obtained and the profile lookup succeeded; otherwise neither the config files nor the disk change |
| DownloadCommand.MergeArgs | knbackup/src/command/download.rs:130-136 | fresh copies: the refresh token and user id are filled from the loaded profile where absent, and the other fields are copied |
| DownloadCommand.Run | knbackup/src/command/download.rs:130-150 | a known refresh token is stored in the SDK before login, and the rest is as in `Next`, with the merged arguments |
| LoginCommand.LoginArgs.constructor | knbackup/src/command/login.rs:9-29 | the arguments hold the given values |
| LoginCommand.LoginArgs.UpdateProfile | knbackup/src/command/login.rs:33-40 | the refresh token and user id are filled from the profile only where absent; no other field changes |
| LoginCommand.LoginModeRules | knbackup/src/command/login.rs:77-112 | refresh-token login exactly when a refresh token is present; password login exactly when there is none but both the user id and the password are present; otherwise no login |
| LoginCommand.Authenticate | knbackup/src/command/login.rs:77-112 | at most one exchange, with the chosen mode's form. A token is obtained exactly when a login is attempted and the exchange succeeds, and then it is the session |
| LoginCommand.MergeArgs | knbackup/src/command/login.rs:51-58 | fresh copies: the refresh token and user id are filled from the loaded profile where absent, and the other fields are copied |
| LoginCommand.RunAsync | knbackup/src/command/login.rs:74-126 | "Invalid args" is printed exactly when no token was obtained. The profile (username, new refresh token) is set and saved exactly when a token was obtained and the profile lookup succeeded; otherwise the config files do not change |
| LoginCommand.Run | knbackup/src/command/login.rs:51-71 | a known refresh token is stored in the SDK before login, and the rest is as in `RunAsync`, with the merged arguments |

## Left out

- HTTP, JSON and the `reqwest` client are not modelled. Every reply is a parameter: the token exchange, the profile lookup (`step_myinfo`, modelled only as its success or failure and the data it returns), each `get_reports` page and each image send.
- `async`/`await`, the one-second and one-millisecond sleeps between requests, and the shared `Arc<Mutex<…>>` ownership of the options are not modelled; there is a single owner.
- The SDK wrapper in `lib/kidsnote-sdk/src/lib.rs` is not part of this model. `set_refresh_token` is only recorded (`preset`), because the option setters it calls are not in `options.rs`.
- Command-line parsing with clap (`knbackup/src/main.rs`) and the broken test stub `lib/kidsnote-sdk/src/tests/tool/image_tool_test.rs` are left out.
- `text_to_txt_file` and `text_to_image_file`, the renderers that `download.rs` calls, are not part of this model. Each call is recorded as a render request and leaves the modelled disk unchanged.
- ImageTool.TextToImage: rasterising text with `rusttype`/`imageproc`, loading the font and encoding the image are not modelled. The saved bytes are a parameter, and the draws are recorded as positions and strings.
- ImageTool.TextRows: `y_position` is an `f32` in the source; the model uses the exact step of 36, which an `f32` represents exactly at these sizes.
- ImageTool.TextFitsCanvas: the `u32` width and height are unbounded integers here; wrap-around for lines longer than about 500 million bytes is not modelled.
- DownloadCommand.StepChildReportDownload: `result` is an `i32` in the source; it is unbounded here, so wrap-around after 2^31 reports is not modelled.
- TOML (de)serialisation is abstracted: a config file is either a parsed profile or unparseable, and `save` writes the profile itself. The `unwrap` on `toml::to_string` cannot fail in the model.
- `dirs::home_dir` is a parameter (`home`).
- The log4rs appender set-up (`knbackup/src/logger.rs:24-37`) and all log lines are left out.
- Logger.LevelFor: lower-casing is ASCII only; Rust's `to_lowercase` is Unicode, so non-ASCII letters that lower-case onto one of the six names are not modelled.
- chrono formatting is not modelled: a report date is given as pre-split UTC fields (year 0–9999, month, day, Unix seconds, nanoseconds). Years outside 0–9999 and the Korean long date inside the title are taken as given.
- ReportFiles.FileName: only "/" separates components, as on Unix; Windows prefixes and `\` separators are not modelled.
- Fs.FileSystem.CreateFile: whether `File::create` fails is a fault flag independent of the directories, so the model allows a file whose parent directory could not be created; an OS would refuse it with NotFound.
- Paths are a root and a list of components. `PathBuf` normalisation and names that contain a separator (a child name with "/") are not modelled, and neither is `to_str` failing on non-UTF-8 paths.
- Error texts carry only their fixed part; the OS or `reqwest` error detail formatted into them is left out.
- The URL of each image request is checked in `DownloadImage`, but `PerformActions` keeps only the number of requests.
- `File::create` truncates a file before it is written. The model keeps an empty file when the write fails. A newly created file's times are the current time (`now`) until they are set.
- The session guard in `lib/kidsnote-sdk/src/child/mod.rs` and `lib/kidsnote-sdk/src/user/mod.rs` is covered by `GetDefaultSessionOrError`; those thin wrappers are not modelled otherwise.
