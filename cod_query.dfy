/**
 * The status query of Call of Duty 4 and 5 servers: whatever is asked
 * for, the request is the same `getstatus` datagram, and the protocol
 * only remembers whether server information or the player list was
 * wanted. Answers are not decoded.
 */
module CodQuery {
  import opened Wrappers
  import opened GamePackets
  import SourceQuery

  /** `QUERY_STATUS`: four `\xFF` bytes, `getstatus` and a NUL. */
  const QueryStatus: seq<Byte> := SourceQuery.QueryHeader + StatusText + [0]
  const StatusText: seq<Byte> := SourceQuery.Latin1("getstatus")

  /** The kinds of query the protocol remembers as asked. */
  predicate Recognised(kind: string) {
    kind == "info" || kind == "players"
  }

  /** The kind remembered after a request for `kind`: a recognised kind is
      kept, anything else counts as a request for information. */
  function RecordedKind(kind: string): (r: string)
    ensures Recognised(r)
    ensures r == kind <==> Recognised(kind)
    ensures !Recognised(kind) ==> r == "info"
  {
    if Recognised(kind) then kind else "info"
  }

  /** Asking again for what was remembered remembers the same kind. */
  lemma {:induction false} RecordedKindStable(kind: string)
    ensures RecordedKind(RecordedKind(kind)) == RecordedKind(kind)
  {
    assert Recognised(RecordedKind(kind));
  }

  /** The request is the query header, then the NUL-terminated text
      `getstatus`, which a packet reader reads back from offset 4. */
  lemma QueryStatusShape()
    ensures |QueryStatus| == 14 && QueryStatus[..4] == SourceQuery.QueryHeader
    ensures StringFrom(QueryStatus, 4) == Read(Ok(StatusText), 14)
  {
    QueryStatusSlices();
    StatusTextNoNul();
    StringReadsBack(QueryStatus, 4, StatusText);
  }

  lemma QueryStatusSlices()
    ensures |QueryStatus| == 14 && QueryStatus[..4] == SourceQuery.QueryHeader
    ensures QueryStatus[4..13] == StatusText && QueryStatus[13] == 0
  {
  }

  lemma StatusTextNoNul()
    ensures 0 !in StatusText
  {
    forall i | 0 <= i < |StatusText| ensures StatusText[i] != 0 {
      assert StatusText[i] == "getstatus"[i] as int;
    }
  }

  class Cod4Protocol {
    /** `self.type`: absent until the first request. */
    var kind: Option<string>

    constructor ()
      ensures kind == None
    {
      kind := None;
    }

    /** `get_query(type)`: remembers the kind and returns the one request. */
    method GetQuery(requested: string) returns (query: seq<Byte>)
      modifies this
      ensures query == QueryStatus
      ensures kind == Some(RecordedKind(requested))
    {
      if requested == "info" || requested == "players" {
        kind := Some(requested);
      } else {
        kind := Some("info");
      }
      query := QueryStatus;
    }

    /** `parse(packet)`: reading `self.type` before any request raises
        `AttributeError`; otherwise nothing is decoded and nothing changes. */
    method Parse(packet: Packet) returns (failed: bool)
      ensures failed <==> kind.None?
    {
      failed := kind.None?;
    }
  }
}
