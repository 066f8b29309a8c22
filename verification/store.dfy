/**
 * The document store as the ingestion job uses it: the `playlist_data` collection,
 * one document per date, and the single `status/playlist_status` document. Writes
 * are `set(..., merge=True)`. Whether a call raises is fixed per run by the fault
 * constants, which stand for the client's exceptions.
 */
module Store {
  import opened Basics

  datatype Value = IntValue(i: int) | TextValue(text: string) | BoolValue(b: bool)

  /** A document: field name to value. */
  type Document = map<string, Value>

  /** A merge write: the given fields are added or replaced, every other field stays. */
  function Merge(doc: Document, fields: Document): (r: Document)
    ensures r.Keys == doc.Keys + fields.Keys
    ensures forall k :: k in fields ==> r[k] == fields[k]
    ensures forall k :: k in doc && k !in fields ==> r[k] == doc[k]
  {
    doc + fields
  }

  /** The document at a key, or the empty one a merge write starts from. */
  function DocumentAt(docs: map<string, Document>, key: string): Document
  {
    if key in docs then docs[key] else map[]
  }

  class Firestore {
    /** playlist_data/{date} */
    var playlistData: map<string, Document>
    /** status/playlist_status */
    var status: Document

    /** The exception a read of playlist_data raises, if any. */
    const readFault: Option<string>
    /** The exception a write to playlist_data raises, if any. */
    const dataWriteFault: Option<string>
    /** The exception a write to the status document raises, if any. */
    const statusWriteFault: Option<string>

    constructor (playlistData: map<string, Document>, status: Document,
                 readFault: Option<string>, dataWriteFault: Option<string>, statusWriteFault: Option<string>)
      ensures this.playlistData == playlistData && this.status == status
      ensures this.readFault == readFault && this.dataWriteFault == dataWriteFault
      ensures this.statusWriteFault == statusWriteFault
    {
      this.playlistData := playlistData;
      this.status := status;
      this.readFault := readFault;
      this.dataWriteFault := dataWriteFault;
      this.statusWriteFault := statusWriteFault;
    }

    /** `db.collection("playlist_data").document(date).get().exists` */
    method DayExists(date: string) returns (r: Result<bool>)
      ensures r == if readFault.Some? then Err(readFault.value) else Ok(date in playlistData)
    {
      if readFault.Some? {
        r := Err(readFault.value);
      } else {
        r := Ok(date in playlistData);
      }
    }

    /** `db.collection("playlist_data").document(date).set(fields, merge=True)` */
    method MergeDay(date: string, fields: Document) returns (r: Outcome)
      modifies this
      ensures r == if dataWriteFault.Some? then Fail(dataWriteFault.value) else Pass
      ensures status == old(status)
      ensures playlistData == if r.Fail? then old(playlistData)
                              else old(playlistData)[date := Merge(DocumentAt(old(playlistData), date), fields)]
    {
      if dataWriteFault.Some? {
        r := Fail(dataWriteFault.value);
      } else {
        playlistData := playlistData[date := Merge(DocumentAt(playlistData, date), fields)];
        r := Pass;
      }
    }

    /** `db.collection("status").document("playlist_status").set(fields, merge=True)` */
    method MergeStatus(fields: Document) returns (r: Outcome)
      modifies this
      ensures r == if statusWriteFault.Some? then Fail(statusWriteFault.value) else Pass
      ensures playlistData == old(playlistData)
      ensures status == if r.Fail? then old(status) else Merge(old(status), fields)
    {
      if statusWriteFault.Some? {
        r := Fail(statusWriteFault.value);
      } else {
        status := Merge(status, fields);
        r := Pass;
      }
    }
  }

  /** Reading back a day written with a merge yields the written fields; other fields of that day and every other day are untouched. */
  lemma MergedDayReadsBack(docs: map<string, Document>, date: string, fields: Document, other: string, field: string)
    ensures var after := docs[date := Merge(DocumentAt(docs, date), fields)];
            && date in after
            && (field in fields ==> field in after[date] && after[date][field] == fields[field])
            && (field !in fields && date in docs && field in docs[date] ==> field in after[date] && after[date][field] == docs[date][field])
            && (other != date ==> (other in after <==> other in docs) && (other in docs ==> after[other] == docs[other]))
  {
  }
}
