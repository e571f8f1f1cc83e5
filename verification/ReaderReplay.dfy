/**
 From the row images in the log to the ghost: what the reader makes of a rows event, and
 what the statements built from that do.
 */
module ReaderReplay {
  import opened Wrappers
  import opened Columns
  import opened Dml
  import opened RowEvents
  import opened RowReplay
  import Reader
  import Replay

  // ----- what the reader makes of a rows event

  /** The old and the new image of a row; an insert has no old one, a delete no new one. */
  datatype Images = Images(before: Reader.RowImage, after: Reader.RowImage)

  /** The rows of an event as the server logs them: of an update first the old and then the new image. */
  function EventRows(dml: Tag, images: seq<Images>): seq<Reader.RowImage> {
    if images == [] then []
    else
      var n := |images| - 1;
      EventRows(dml, images[..n]) +
      (if dml.InsertDML? then [] else [images[n].before]) + (if dml.DeleteDML? then [] else [images[n].after])
  }

  /** What ought to be sent: the images of each row in their places. */
  function Sendings(dml: Tag, images: seq<Images>): (sent: seq<Reader.RowChange>)
    ensures |sent| == |images|
    ensures forall j | 0 <= j < |sent| ::
              sent[j] == Reader.RowChange(dml, if dml.InsertDML? then None else Some(images[j].before),
                                          if dml.DeleteDML? then None else Some(images[j].after))
  {
    seq(|images|, j requires 0 <= j < |images| =>
      Reader.RowChange(dml, if dml.InsertDML? then None else Some(images[j].before),
                       if dml.DeleteDML? then None else Some(images[j].after)))
  }

  lemma {:induction false} UpdateRows(images: seq<Images>)
    ensures var rows := EventRows(UpdateDML, images);
            && |rows| == 2 * |images|
            && (forall j | 0 <= j < |images| :: rows[2 * j] == images[j].before)
            && (forall j | 0 <= j < |images| :: rows[2 * j + 1] == images[j].after)
  {
    if images != [] {
      UpdateRows(images[..|images| - 1]);
    }
  }

  lemma {:induction false} OtherRows(dml: Tag, images: seq<Images>)
    requires dml.InsertDML? || dml.DeleteDML?
    ensures var rows := EventRows(dml, images);
            && |rows| == |images|
            && forall j | 0 <= j < |images| :: rows[j] == if dml.InsertDML? then images[j].after else images[j].before
  {
    if images != [] {
      OtherRows(dml, images[..|images| - 1]);
    }
  }

  /** For every rows event the reader sends the images of each row, in order, each in its place. */
  lemma SentAsLogged(dml: Tag, images: seq<Images>)
    requires !dml.NotDML?
    ensures var rows := EventRows(dml, images);
            && (dml.UpdateDML? ==> |rows| % 2 == 0)
            && Reader.ChangesUpTo(dml, rows, |rows|) == Sendings(dml, images)
  {
    if dml.UpdateDML? {
      UpdateRows(images);
    } else {
      OtherRows(dml, images);
    }
    Reader.ChangesAre(dml, EventRows(dml, images));
  }

  // ----- what is logged of changes

  /** The changes of one rows event are all of its kind. */
  ghost predicate OneKind(s: Schema, domains: Domains, dml: Tag, changes: seq<Change>) {
    AreChanges(s, domains, changes) && !dml.NotDML? && forall i | 0 <= i < |changes| :: changes[i].dml == dml
  }

  ghost function ImagesOf(s: Schema, domains: Domains, c: Change): Images
    requires IsChange(s, domains, c)
  {
    Images(if c.dml.InsertDML? then [] else LoggedRow(s, domains, c.before),
           if c.dml.DeleteDML? then [] else LoggedRow(s, domains, c.after))
  }

  ghost function LoggedImages(s: Schema, domains: Domains, changes: seq<Change>): (images: seq<Images>)
    requires AreChanges(s, domains, changes)
    ensures |images| == |changes| && forall i | 0 <= i < |changes| :: images[i] == ImagesOf(s, domains, changes[i])
  {
    seq(|changes|, i requires 0 <= i < |changes| => ImagesOf(s, domains, changes[i]))
  }

  /** A row image that is not there has no values. */
  function ImageOf(image: Option<Reader.RowImage>): seq<Datum> {
    if image.Some? then image.value else []
  }

  /** What is sent for a change is what was logged of it. */
  ghost predicate LoggedAs(s: Schema, domains: Domains, c: Change, sent: Reader.RowChange)
    requires IsChange(s, domains, c)
  {
    sent.dml == c.dml && Logs(s, domains, c, ImageOf(sent.where), ImageOf(sent.values))
  }

  ghost predicate AllLoggedAs(s: Schema, domains: Domains, changes: seq<Change>, sent: seq<Reader.RowChange>)
    requires AreChanges(s, domains, changes)
  {
    |sent| == |changes| && forall j | 0 <= j < |sent| :: LoggedAs(s, domains, changes[j], sent[j])
  }

  lemma SendingsAreLogged(s: Schema, domains: Domains, dml: Tag, changes: seq<Change>)
    requires OneKind(s, domains, dml, changes)
    ensures AllLoggedAs(s, domains, changes, Sendings(dml, LoggedImages(s, domains, changes)))
  {
  }

  // ----- what the applier makes of it

  /** The statements built for what was sent, performed in order. */
  ghost function PerformSent(s: Schema, domains: Domains, g: Table, changes: seq<Change>,
                             sent: seq<Reader.RowChange>): Table
    requires AreChanges(s, domains, changes) && AllLoggedAs(s, domains, changes, sent)
    decreases |sent|
  {
    if sent == [] then g
    else
      var n := |sent| - 1;
      var last := sent[n];
      PerformAll(s, domains, PerformSent(s, domains, g, changes[..n], sent[..n]),
                 Results(s, last.dml, ImageOf(last.where), ImageOf(last.values)))
  }

  /** One more change, built and performed. */
  lemma OneMorePerforms(s: Schema, domains: Domains, g: Table, c: Change, sent: Reader.RowChange)
    requires IsChange(s, domains, c) && IsGhost(s, g) && LoggedAs(s, domains, c, sent)
    ensures PerformAll(s, domains, g, Results(s, sent.dml, ImageOf(sent.where), ImageOf(sent.values))) ==
            Replay.Apply(g, EventOf(s, domains, c))
    ensures IsGhost(s, Replay.Apply(g, EventOf(s, domains, c)))
  {
    EventIsReplayed(s, domains, g, c, ImageOf(sent.where), ImageOf(sent.values));
    GhostKept(s, domains, g, c);
  }

  lemma {:induction false} SentPerforms(s: Schema, domains: Domains, g: Table, changes: seq<Change>,
                                        sent: seq<Reader.RowChange>)
    requires AreChanges(s, domains, changes) && AllLoggedAs(s, domains, changes, sent) && IsGhost(s, g)
    ensures PerformSent(s, domains, g, changes, sent) == ReplayAll(s, domains, g, changes)
    ensures IsGhost(s, ReplayAll(s, domains, g, changes))
    decreases |sent|
  {
    if sent != [] {
      var n := |sent| - 1;
      var before := ReplayAll(s, domains, g, changes[..n]);
      SentPerforms(s, domains, g, changes[..n], sent[..n]);
      OneMorePerforms(s, domains, before, changes[n], sent[n]);
    }
  }

  /**
   Log to ghost: the statements built from what the reader sends for a rows event do to
   the ghost what replaying the projected changes in order does.
   */
  lemma RowsEventIsReplayed(s: Schema, domains: Domains, g: Table, dml: Tag, changes: seq<Change>)
    requires OneKind(s, domains, dml, changes) && IsGhost(s, g)
    ensures var rows := EventRows(dml, LoggedImages(s, domains, changes));
            && (dml.UpdateDML? ==> |rows| % 2 == 0)
            && AllLoggedAs(s, domains, changes, Reader.ChangesUpTo(dml, rows, |rows|))
            && PerformSent(s, domains, g, changes, Reader.ChangesUpTo(dml, rows, |rows|)) ==
               ReplayAll(s, domains, g, changes)
  {
    var images := LoggedImages(s, domains, changes);
    SentAsLogged(dml, images);
    SendingsAreLogged(s, domains, dml, changes);
    SentPerforms(s, domains, g, changes, Sendings(dml, images));
  }
}
