/** The Slack message notify.js builds: `formatSlackBlocks`, the growth of
    the `blocks` and `text` arrays one failure at a time, and the final
    `message` (or its absence). Block kit blocks are modelled by the two
    kinds the notifier emits. */
module Slack {
  import opened Wrappers
  import opened Text

  datatype TextObject = Mrkdwn(text: string) | PlainText(text: string)

  datatype Block = Divider | Section(text: TextObject)

  /** What `formatSlackBlocks` is given about one failed probe: the monitor's
      name, the probed host and port, the monitor URL and `String(err)`. */
  datatype ProbeFailure = ProbeFailure(title: string, host: string, port: nat, monitorUrl: string, err: string)

  /** The heading of one failure entry. */
  function Headline(f: ProbeFailure): string {
    "*Failed to check HTTPS for " + f.title + "*\n\nChecked " + f.host + " port " + NatToString(f.port)
      + " of " + f.monitorUrl + " and got error"
  }

  /** The two sections that describe one failure. */
  function Entry(f: ProbeFailure): seq<Block> {
    [Section(Mrkdwn(Headline(f))), Section(PlainText(f.err))]
  }

  /** `formatSlackBlocks(failure, blocks)`: a divider first exactly when
      `blocks` already holds something, then the failure's two sections. */
  function FormatSlackBlocks(f: ProbeFailure, blocks: seq<Block>): (r: seq<Block>)
    ensures |r| == if |blocks| > 0 then 3 else 2
    ensures r[0] == Divider <==> |blocks| > 0
    ensures r[|r| - 2..] == Entry(f)
  {
    (if |blocks| > 0 then [Divider] else []) + Entry(f)
  }

  /** The `blocks` array after one `blocks.push(...formatSlackBlocks(f, blocks))`
      per failure, in the order the failures were recorded. */
  function Accumulated(fs: seq<ProbeFailure>): (blocks: seq<Block>)
    ensures blocks == [] <==> fs == []
  {
    if fs == [] then []
    else
      var before := Accumulated(fs[..|fs| - 1]);
      before + FormatSlackBlocks(fs[|fs| - 1], before)
  }

  /** `"Failed " + host + ":" + port` */
  function FailedLine(f: ProbeFailure): string {
    "Failed " + f.host + ":" + NatToString(f.port)
  }

  /** The `text` array after one `text.push(...)` per failure. */
  function FailureLines(fs: seq<ProbeFailure>): (lines: seq<string>)
    ensures |lines| == |fs|
    ensures forall i :: 0 <= i < |fs| ==> lines[i] == FailedLine(fs[i])
  {
    if fs == [] then [] else FailureLines(fs[..|fs| - 1]) + [FailedLine(fs[|fs| - 1])]
  }

  /** Where everything sits in the accumulated blocks: failure `i` takes
      positions `3i` and `3i+1`, and the divider before it position `3i-1`;
      so there are `3k-1` blocks for `k` failures and none for no failure. */
  lemma {:induction false} AccumulatedLayout(fs: seq<ProbeFailure>)
    ensures |Accumulated(fs)| == if fs == [] then 0 else 3 * |fs| - 1
    ensures forall i :: 0 <= i < |fs| ==>
              Accumulated(fs)[3 * i] == Section(Mrkdwn(Headline(fs[i]))) &&
              Accumulated(fs)[3 * i + 1] == Section(PlainText(fs[i].err)) &&
              (i > 0 ==> Accumulated(fs)[3 * i - 1] == Divider)
  {
    if fs != [] {
      var init := fs[..|fs| - 1];
      AccumulatedLayout(init);
      var before := Accumulated(init);
      var all := Accumulated(fs);
      assert all == before + FormatSlackBlocks(fs[|fs| - 1], before);
      forall i | 0 <= i < |fs|
        ensures all[3 * i] == Section(Mrkdwn(Headline(fs[i])))
        ensures all[3 * i + 1] == Section(PlainText(fs[i].err))
        ensures i > 0 ==> all[3 * i - 1] == Divider
      {
        if i < |fs| - 1 {
          assert fs[i] == init[i];
        }
      }
    }
  }

  /** The number of divider blocks in `blocks`. */
  function Dividers(blocks: seq<Block>): nat {
    if blocks == [] then 0
    else Dividers(blocks[..|blocks| - 1]) + (if blocks[|blocks| - 1] == Divider then 1 else 0)
  }

  lemma {:induction false} DividersAppend(a: seq<Block>, b: seq<Block>)
    ensures Dividers(a + b) == Dividers(a) + Dividers(b)
  {
    if b != [] {
      assert (a + b)[..|a + b| - 1] == a + b[..|b| - 1];
      DividersAppend(a, b[..|b| - 1]);
    } else {
      assert a + b == a;
    }
  }

  lemma NoDividerInEntry(f: ProbeFailure)
    ensures Dividers(Entry(f)) == 0
  {
    var e := Entry(f);
    assert e[..1][..0] == [];
    assert Dividers(e[..1]) == 0;
  }

  /** Dividers separate entries: after `k` failures there are exactly
      `k-1` of them, and the first block is never one. */
  lemma {:induction false} DividersBetweenEntries(fs: seq<ProbeFailure>)
    ensures Dividers(Accumulated(fs)) == if fs == [] then 0 else |fs| - 1
    ensures fs != [] ==> Accumulated(fs)[0] != Divider
  {
    if fs != [] {
      var init := fs[..|fs| - 1];
      DividersBetweenEntries(init);
      var before := Accumulated(init);
      var added := FormatSlackBlocks(fs[|fs| - 1], before);
      DividersAppend(before, added);
      NoDividerInEntry(fs[|fs| - 1]);
      if before != [] {
        assert added == [Divider] + Entry(fs[|fs| - 1]);
        DividersAppend([Divider], Entry(fs[|fs| - 1]));
        assert [Divider][..0] == [];
      }
      AccumulatedLayout(fs);
    }
  }

  const SummaryTitle := "*UptimeRobot SSL check* "
  const TextPrefix := "UptimeRobot SSL check: "

  datatype Message = Message(blocks: seq<Block>, text: string)

  /** The summary section that opens the message; `timestamp` is
      `new Date().toISOString()`. */
  function SummaryBlock(timestamp: string): Block {
    Section(Mrkdwn(SummaryTitle + timestamp))
  }

  function LogLinkBlock(logLink: string): Block {
    Section(Mrkdwn("<" + logLink + "|Open log for details>"))
  }

  /** The `message` expression: absent when `blocks` is empty, otherwise the
      summary, the accumulated blocks, the log link when there is one, and
      the flat text fallback. */
  function BuildMessage(blocks: seq<Block>, lines: seq<string>, logLink: Option<string>, timestamp: string): (m: Option<Message>)
    ensures m.None? <==> blocks == []
    ensures m.Some? ==> |m.value.blocks| == |blocks| + (if Truthy(logLink) then 2 else 1)
    ensures m.Some? ==> m.value.blocks[0] == SummaryBlock(timestamp) && m.value.blocks[1..|blocks| + 1] == blocks
    ensures m.Some? && Truthy(logLink) ==> m.value.blocks[|m.value.blocks| - 1] == LogLinkBlock(logLink.value)
    ensures m.Some? ==> m.value.text == TextPrefix + Join(lines, "\n")
  {
    if |blocks| > 0 then
      Some(Message(
        [SummaryBlock(timestamp)] + blocks + (if Truthy(logLink) then [LogLinkBlock(logLink.value)] else []),
        TextPrefix + Join(lines, "\n")))
    else None
  }

  /** There is a message exactly when some failure was recorded. */
  lemma {:induction false} MessageIffFailures(fs: seq<ProbeFailure>, logLink: Option<string>, timestamp: string)
    ensures BuildMessage(Accumulated(fs), FailureLines(fs), logLink, timestamp).None? <==> fs == []
  {
    AccumulatedLayout(fs);
  }

  /** The blocks of the message for the failures recorded, in the order
      recorded: the summary, then for each failure its two sections with a
      divider between consecutive failures, then the log link exactly when
      `logLink` is set. */
  lemma {:induction false} MessageBlocks(fs: seq<ProbeFailure>, logLink: Option<string>, timestamp: string)
    requires fs != []
    ensures BuildMessage(Accumulated(fs), FailureLines(fs), logLink, timestamp).Some?
    ensures var blocks := BuildMessage(Accumulated(fs), FailureLines(fs), logLink, timestamp).value.blocks;
            && |blocks| == 3 * |fs| + (if Truthy(logLink) then 1 else 0)
            && blocks[0] == SummaryBlock(timestamp)
            && (forall i :: 0 <= i < |fs| ==>
                  blocks[3 * i + 1] == Section(Mrkdwn(Headline(fs[i]))) &&
                  blocks[3 * i + 2] == Section(PlainText(fs[i].err)) &&
                  (i > 0 ==> blocks[3 * i] == Divider))
            && (Truthy(logLink) ==> blocks[|blocks| - 1] == LogLinkBlock(logLink.value))
            && (!Truthy(logLink) ==> blocks[|blocks| - 1] == Section(PlainText(fs[|fs| - 1].err)))
  {
    AccumulatedLayout(fs);
    var acc := Accumulated(fs);
    var blocks := BuildMessage(acc, FailureLines(fs), logLink, timestamp).value.blocks;
    assert blocks[1..|acc| + 1] == acc;
    forall i | 0 <= i < |fs|
      ensures blocks[3 * i + 1] == Section(Mrkdwn(Headline(fs[i])))
      ensures blocks[3 * i + 2] == Section(PlainText(fs[i].err))
      ensures i > 0 ==> blocks[3 * i] == Divider
    {
      assert blocks[3 * i + 1] == acc[3 * i];
      assert blocks[3 * i + 2] == acc[3 * i + 1];
      if i > 0 {
        assert blocks[3 * i] == acc[3 * i - 1];
      }
    }
    if !Truthy(logLink) {
      assert blocks[|blocks| - 1] == acc[3 * (|fs| - 1) + 1];
    }
  }

  /** The text of the message: after its prefix it splits on newlines back
      into one `Failed host:port` line per failure, in the order recorded
      (host names hold no newline). */
  lemma {:induction false} MessageText(fs: seq<ProbeFailure>, logLink: Option<string>, timestamp: string)
    requires fs != []
    requires forall i :: 0 <= i < |fs| ==> '\n' !in fs[i].host
    ensures BuildMessage(Accumulated(fs), FailureLines(fs), logLink, timestamp).Some?
    ensures var text := BuildMessage(Accumulated(fs), FailureLines(fs), logLink, timestamp).value.text;
            StartsWith(text, TextPrefix) && Split(text[|TextPrefix|..], '\n') == FailureLines(fs)
  {
    AccumulatedLayout(fs);
    var lines := FailureLines(fs);
    var text := BuildMessage(Accumulated(fs), lines, logLink, timestamp).value.text;
    forall k | 0 <= k < |lines| ensures '\n' !in lines[k] {
      NoNewlineInFailedLine(fs[k]);
    }
    SplitJoin(lines, '\n');
    assert text == TextPrefix + Join(lines, "\n");
    assert text[|TextPrefix|..] == Join(lines, "\n");
  }

  lemma NoNewlineInFailedLine(f: ProbeFailure)
    requires '\n' !in f.host
    ensures '\n' !in FailedLine(f)
  {
    var digits := NatToString(f.port);
    assert forall i :: 0 <= i < |digits| ==> IsDigit(digits[i]);
    assert FailedLine(f) == "Failed " + f.host + ":" + digits;
  }
}
