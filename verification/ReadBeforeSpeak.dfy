/**
  Read before speak, end to end: the creator publishes a speak or whisper that
  carries the client's cursor only if its author's agent has read everything
  that counts for it, up to the moment of publishing.
  */
module ReadBeforeSpeak {
  import opened Common
  import opened Messages
  import opened SessionStore
  import opened Creator
  import CreatorProofs
  import NoSkip
  import W = DeliveryWorld

  /** What counts for `me` in the log: others' public messages and whispers addressed to `me`. */
  ghost predicate CountedRead(log: seq<Message>, me: string, preset: nat, consumed: set<nat>) {
    forall s: nat | preset < s <= |log| && Counts(log[s - 1], me) :: s in consumed
  }

  lemma CursorReadAll(w: W.World, later: seq<Message>)
    requires NoSkip.Inv(w) && w.log <= later && GaplessLog(later)
    requires LatestOther(later, w.c.me) <= w.c.cargo.cursor
    ensures CountedRead(later, w.c.me, w.preset, w.consumed)
  {
    var cursor := w.c.cargo.cursor;
    StaleIff(later, w.c.me, cursor);
    forall s: nat | w.preset < s <= |later| && Counts(later[s - 1], w.c.me) ensures s in w.consumed {
      if cursor <= s - 1 {
        assert false;
      }
      assert later[s - 1] == w.log[s - 1];
      assert !NoSkip.Missing(NoSkip.GroundOf(w), s);
    }
  }

  /**
    The client sends its cursor at one moment, the creator handles the request at
    a later one, when its log has grown by whatever others and the client itself
    have sent meanwhile.
    */
  lemma {:induction false} PublishedHasRead(log: seq<Message>, me: string, preset: nat, es: seq<W.Event>,
                         creator: Creator, author: OnlineCharacter, recipient: Option<Party>, content: string,
                         stamp: Stamp, fault: AppendFault)
    requires GaplessLog(log) && preset <= |log|
    requires NoSkip.SafeRun(W.Start(log, me, preset), es)
    requires CreatorProofs.Good(creator) && creator.round.Some? && author.id == W.Run(W.Start(log, me, preset), es).c.me
    requires W.Run(W.Start(log, me, preset), es).log <= Log(creator)
    requires var basis := W.Run(W.Start(log, me, preset), es).c.cargo.cursor;
             Publish(creator, author, recipient, content, Some(basis), stamp, fault).1.Published?
    ensures CountedRead(Log(creator), author.id, preset, W.Run(W.Start(log, me, preset), es).consumed)
  {
    NoSkip.AlwaysSound(log, me, preset, es);
    NoSkip.PresetStays(log, me, preset, es);
    CursorReadAll(W.Run(W.Start(log, me, preset), es), Log(creator));
  }

  /**
    A rejection as stale always has a cause the author is not: some public message
    by someone else, or a whisper to the author, beyond the cursor.  Its own
    messages and whispers between others never reject it.
    */
  lemma StaleNamesACause(creator: Creator, author: OnlineCharacter, recipient: Option<Party>, content: string,
                         basis: nat, stamp: Stamp, fault: AppendFault)
    requires CreatorProofs.Good(creator) && creator.round.Some?
    ensures Publish(creator, author, recipient, content, Some(basis), stamp, fault).1.Stale?
            <==> exists i :: basis <= i < |Log(creator)| && Counts(Log(creator)[i], author.id)
  {
    CreatorProofs.PublishedIff(creator, author, recipient, content, Some(basis), stamp, fault);
  }
}
