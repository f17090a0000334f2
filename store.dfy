/** The `files` table as the gateway sees it: the row it inserts and reads
    back, and what the database says to an INSERT. */
module Store {
  import opened Values

  /** A row of `files`. The nullable TEXT columns are `Option`s; the
      `uploadDate` column is filled by the database and not modelled. */
  datatype FileRecord = FileRecord(
    id: string,
    filename: string,
    originalName: string,
    size: nat,
    mimetype: Option<string>,
    cloudSkyUrl: Option<string>,
    catboxUrl: Option<string>,
    primaryProvider: string,
    publicUrl: string)

  /** The answer to one `INSERT INTO files`: the row went in, or
      `db.execute` threw an error with this message (a UNIQUE violation on
      `filename` is one such error). */
  datatype InsertAnswer = Inserted | InsertThrew(message: string)
}
