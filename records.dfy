/** The records the download command reads, with the fields it uses
    (lib/kidsnote-sdk/src/child/datatypes.rs, user/datatypes.rs,
    resource/datatypes.rs), typed as the call sites in
    knbackup/src/command/download.rs use them. */
module Records {
  import opened Wrappers
  import opened Ints

  /** `ResourceImageResponse`. */
  datatype ResourceImage = ResourceImage(id: u64, originalFileName: string, fileSize: i32, original: string)

  type Year = y: int | 0 <= y <= 9999
  type Month = m: int | 1 <= m <= 12 witness 1
  type Day = d: int | 1 <= d <= 31 witness 1

  /** A `DateTime<Utc>`, already split into its UTC calendar fields, plus the
      Unix time in seconds and the sub-second nanoseconds. */
  datatype UtcDateTime = UtcDateTime(year: Year, month: Month, day: Day, unixSeconds: int, nanos: nat)

  /** `ChildReportDataResponse`, with `center` and `content` optional as the
      downloader treats them. */
  datatype ChildReport = ChildReport(
    id: u64, created: UtcDateTime, authorName: string, center: Option<u64>,
    cls: u64, className: string, content: Option<string>, attachedImages: seq<ResourceImage>)

  /** `ChildReportResponse`: one page of reports and the cursor of the next. */
  datatype ChildReportResponse = ChildReportResponse(
    count: i32, next: Option<string>, previous: Option<string>, results: seq<ChildReport>)

  /** `GetReportsParam`: the query of one page request. */
  datatype GetReportsParam = GetReportsParam(
    page: Option<string>, dateStart: Option<string>, dateEnd: Option<string>, tz: Option<string>)

  /** `GetReportsParam::new()`: nothing set. */
  const EmptyQuery := GetReportsParam(None, None, None, None)

  /** `MeInfoChildEnrollment`. */
  datatype Enrollment = Enrollment(centerId: u64, centerName: string, className: string)

  /** `MeInfoChildrenResponse`. */
  datatype Child = Child(id: u64, name: string, enrollment: seq<Enrollment>)

  /** `MeInfoResponse`: the user name and the children. */
  datatype MeInfo = MeInfo(username: string, children: seq<Child>)
}
