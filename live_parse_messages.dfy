/** The vote-detection feed (public/javascripts/live_parse_messages.js): each
    `vote_detection` frame adds a row, newest first, to the results table of
    its event. The page's elements are a map from element id to the rows of
    the element's `tbody` (None when the element has no `tbody`). */
module LiveVotes {
  import opened Base

  /** A table row `<tr>` and the texts of its `<td>` cells, in order. */
  datatype Row = Row(cells: seq<string>)

  /** A decoded frame, by its `type` field; the fields are the values' texts. */
  datatype FeedMessage =
    | VoteDetection(eventId: string, userName: string, message: string, optionText: string, confidence: string)
    | OtherType(tag: string)

  datatype FeedFrame = FeedJson(msg: FeedMessage) | FeedNotJson(text: string)

  type Tables = map<string, Option<seq<Row>>>

  /** The row shown for a detected vote. */
  function VoteRow(m: FeedMessage): (r: Row)
    requires m.VoteDetection?
    ensures |r.cells| == 4
    ensures r.cells[0] == m.userName && r.cells[1] == m.message
    ensures r.cells[2] == m.optionText && r.cells[3] == m.confidence
  {
    Row([m.userName, m.message, m.optionText, m.confidence])
  }

  /** Whether frame `f` adds a row to the table with id `id`. */
  predicate AddsTo(t: Tables, f: FeedFrame, id: string) {
    f.FeedJson? && f.msg.VoteDetection? && f.msg.eventId == id && id in t && t[id].Some?
  }

  /** The page after one frame. A frame that is not JSON throws in `JSON.parse`;
      an element without a `tbody` makes `insertBefore` throw; both change nothing. */
  function Step(t: Tables, f: FeedFrame): Tables
  {
    match f
    case FeedNotJson(_) => t
    case FeedJson(m) =>
      if m.VoteDetection? && m.eventId in t && t[m.eventId].Some? then
        t[m.eventId := Some([VoteRow(m)] + t[m.eventId].value)]
      else t
  }

  /** A frame adds exactly one row, at the front of its event's table, and
      leaves every other table and every other frame's target as it was. */
  lemma StepSpec(t: Tables, f: FeedFrame)
    ensures Step(t, f).Keys == t.Keys
    ensures forall id :: id in t && AddsTo(t, f, id) ==>
      t[id].Some? && Step(t, f)[id] == Some([VoteRow(f.msg)] + t[id].value)
    ensures forall id :: id in t && !AddsTo(t, f, id) ==> Step(t, f)[id] == t[id]
    ensures !(f.FeedJson? && f.msg.VoteDetection?) ==> Step(t, f) == t
  {
  }

  /** The page after a sequence of frames, in arrival order. */
  function Feed(t: Tables, fs: seq<FeedFrame>): Tables
  {
    if fs == [] then t else Step(Feed(t, fs[..|fs| - 1]), fs[|fs| - 1])
  }

  /** The rows of a sequence of vote detections, newest first. */
  function NewestFirst(fs: seq<FeedFrame>): seq<Row>
    requires forall k :: 0 <= k < |fs| ==> fs[k].FeedJson? && fs[k].msg.VoteDetection?
  {
    if fs == [] then [] else [VoteRow(fs[|fs| - 1].msg)] + NewestFirst(fs[..|fs| - 1])
  }

  lemma {:induction false} FeedKeys(t: Tables, fs: seq<FeedFrame>)
    ensures Feed(t, fs).Keys == t.Keys
  {
    if fs != [] {
      FeedKeys(t, fs[..|fs| - 1]);
    }
  }

  /** Vote detections for a present table put their rows on top, newest first,
      above the rows already there: there is no cap on the row count. */
  lemma {:induction false} FeedPrependsNewestFirst(t: Tables, fs: seq<FeedFrame>, id: string)
    requires id in t && t[id].Some?
    requires forall k :: 0 <= k < |fs| ==> fs[k].FeedJson? && fs[k].msg.VoteDetection? && fs[k].msg.eventId == id
    ensures id in Feed(t, fs) && Feed(t, fs)[id] == Some(NewestFirst(fs) + t[id].value)
    ensures |Feed(t, fs)[id].value| == |t[id].value| + |fs|
  {
    if fs != [] {
      var front := fs[..|fs| - 1];
      FeedPrependsNewestFirst(t, front, id);
      FeedKeys(t, front);
      var rest, last := Feed(t, front), fs[|fs| - 1];
      assert Feed(t, fs) == Step(rest, last);
      assert Step(rest, last)[id] == Some([VoteRow(last.msg)] + rest[id].value);
      assert rest[id].value == NewestFirst(front) + t[id].value;
      assert NewestFirst(fs) == [VoteRow(last.msg)] + NewestFirst(front);
      assert [VoteRow(last.msg)] + rest[id].value == NewestFirst(fs) + t[id].value;
    } else {
      assert NewestFirst(fs) + t[id].value == t[id].value;
      assert t[id] == Some(t[id].value);
    }
  }

  /** A table that no frame targets is left exactly as it was. */
  lemma {:induction false} FeedLeavesOthers(t: Tables, fs: seq<FeedFrame>, id: string)
    requires id in t
    requires forall k :: 0 <= k < |fs| && fs[k].FeedJson? && fs[k].msg.VoteDetection? ==> fs[k].msg.eventId != id
    ensures id in Feed(t, fs) && Feed(t, fs)[id] == t[id]
  {
    if fs != [] {
      FeedLeavesOthers(t, fs[..|fs| - 1], id);
      FeedKeys(t, fs[..|fs| - 1]);
    }
  }

  class VoteFeed {
    /** A WebSocket was created (the browser supports it). */
    var connected: bool
    var tables: Tables

    /** Page load: without WebSocket support no connection is created. */
    constructor (webSocketSupported: bool, tables: Tables)
      ensures connected == webSocketSupported && this.tables == tables
    {
      connected := webSocketSupported;
      this.tables := tables;
    }

    method OnMessage(frame: FeedFrame)
      requires connected
      modifies this`tables
      ensures tables == Step(old(tables), frame)
    {
      match frame
      case FeedNotJson(_) =>
      case FeedJson(data) =>
        if data.VoteDetection? {
          if data.eventId in tables {
            var body := tables[data.eventId];
            var row := VoteRow(data);
            if body.Some? {
              tables := tables[data.eventId := Some([row] + body.value)];
            }
          }
        }
    }
  }
}
