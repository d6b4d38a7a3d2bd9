/** The helper's output as bytes on the pipe: reading its text is hearing its replies. */
module JobWire {
  import opened Wrappers
  import opened JobText
  import opened JobManager

  /** What the helper wrote for a list of replies. */
  function Text(replies: seq<Reply>, nonce: string): string {
    if replies == [] then "" else ReplyLine(replies[0], nonce) + "\n" + Text(replies[1..], nonce)
  }

  /** The manager hears the replies one after the other. */
  function HearAll(h: Helper, replies: seq<Reply>): Helper
    decreases |replies|
  {
    if replies == [] then h else HearAll(OnReply(h, Admitted(replies[0])), replies[1..])
  }

  predicate AllFit(replies: seq<Reply>) {
    forall i :: 0 <= i < |replies| ==> ReplyFits(replies[i])
  }

  lemma {:induction false} NewlineAfter(line: string, rest: string)
    requires '\n' !in line
    ensures Newline(line + "\n" + rest) == |line|
  {
    if line == "" {
      assert "" + "\n" + rest == "\n" + rest;
    } else {
      NewlineAfter(line[1..], rest);
      assert (line + "\n" + rest)[1..] == line[1..] + "\n" + rest;
    }
  }

  /** One whole line on an empty carry is one reply heard, and leaves the carry empty. */
  lemma OneLineIsOneReply(h: Helper, nonce: string, reply: Reply)
    requires Nonce(nonce) && ReplyFits(reply)
    ensures Lines(Reader(h, nonce, ReplyLine(reply, nonce) + "\n")) == Reader(OnReply(h, Admitted(reply)), nonce, "")
  {
    hide OnReply, ReplyLine, ParseReply, ReplyTokens, Nonce, ReplyFits, Admitted;
    var line := ReplyLine(reply, nonce);
    LineIsPlain(reply, nonce);
    RepliesFitTheFrameLimit(reply, nonce);
    ParseUndoesReply(reply, nonce);
    NewlineAfter(line, "");
    assert line + "\n" + "" == line + "\n";
    var r := Reader(h, nonce, line + "\n");
    assert r.carry[..|line|] == line && r.carry[|line| + 1..] == "";
    assert TakeLine(r) == Reader(OnReply(h, Admitted(reply)), nonce, "");
  }

  lemma LineIsPlain(reply: Reply, nonce: string)
    requires Nonce(nonce)
    ensures '\n' !in ReplyLine(reply, nonce)
  {
    hide ReplyTokens, Nonce;
    ReplyHasTokens(reply, nonce);
    ReplyTokensPlain(reply, nonce);
    JoinHasNoNewline(ReplyTokens(reply, nonce));
  }

  lemma {:induction false} TextIsReplies(h: Helper, nonce: string, replies: seq<Reply>)
    requires Sound(h) && Nonce(nonce) && AllFit(replies)
    ensures Read(Reader(h, nonce, ""), Text(replies, nonce)).helper == HearAll(h, replies)
    decreases |replies|
  {
    hide OnReply, ReplyLine, Nonce, ReplyFits, Admitted, Sound;
    if replies == [] {
      assert Reader(h, nonce, "").carry + "" == "";
    } else {
      var line, rest := ReplyLine(replies[0], nonce) + "\n", Text(replies[1..], nonce);
      var after := Reader(OnReply(h, Admitted(replies[0])), nonce, "");
      OneLineIsOneReply(h, nonce, replies[0]);
      LinesThenMore(Reader(h, nonce, line), rest);
      LinesKeepsSound(h, Admitted(replies[0]));
      TextIsReplies(after.helper, nonce, replies[1..]);
      assert "" + (line + rest) == line + rest;
    }
  }

  /**
   * However the pipe cuts the helper's output into chunks, the manager ends where hearing
   * the helper's replies one by one would have taken it.
   */
  lemma OutputIsHeardReplyByReply(h: Helper, nonce: string, replies: seq<Reply>, chunks: seq<string>)
    requires Sound(h) && Nonce(nonce) && AllFit(replies) && Concat(chunks) == Text(replies, nonce)
    ensures ReadAll(Reader(h, nonce, ""), chunks).helper == HearAll(h, replies)
  {
    hide Nonce, Sound, ReplyFits;
    var r := Reader(h, nonce, "");
    assert Lines(r) == r;
    FramingIgnoresChunks(r, chunks);
    TextIsReplies(h, nonce, replies);
  }
}
