/** The results part of the moderation embed: each per-guild record becomes one
    line, an icon label for its status, the server name, and the error text when
    there is one; the lines are joined by newlines. */
module Reporting {

  import opened Wrappers
  import opened Moderation
  import opened Platform

  /** The status string a handler pushes for each status. */
  function StatusName(s: Status): string {
    match s
    case Banned => "banned"
    case Muted => "muted"
    case Unmuted => "unmuted"
    case Unbanned => "unbanned"
    case NotInServer => "not_in_server"
    case NotBanned => "not_banned"
    case NotMuted => "not_muted"
    case NoPermission => "no_permission"
    case BotNotInServer => "bot_not_in_server"
    case TargetIsModerator => "target_is_moderator"
    case Error => "error"
  }

  const KNOWN_NAMES: set<string> := {
    "banned", "muted", "unmuted", "unbanned", "not_in_server", "not_banned",
    "not_muted", "no_permission", "bot_not_in_server", "target_is_moderator", "error"
  }

  const UNKNOWN_LABEL: string := "❓ Unknown"

  /** `statusIcons[status] || '❓ Unknown'`: the status's label, or the fallback for a
      string the table does not hold. */
  function StatusLabel(name: string): (icon: string)
    ensures icon != "" && '\n' !in icon
    ensures icon == UNKNOWN_LABEL <==> name !in KNOWN_NAMES
  {
    match name
    case "banned" => "✅ Banned"
    case "muted" => "🔇 Muted"
    case "unmuted" => "✅ Unmuted"
    case "unbanned" => "✅ Unbanned"
    case "not_in_server" => "ℹ️ Not in server"
    case "not_banned" => "ℹ️ Not banned"
    case "not_muted" => "ℹ️ Not muted"
    case "no_permission" => "❌ No permission"
    case "bot_not_in_server" => "❌ Bot not in server"
    case "target_is_moderator" => "🚫 Target is moderator"
    case "error" => "⚠️ Error"
    case _ => UNKNOWN_LABEL
  }

  /** The error text is shown only when present and non-empty (JavaScript truthiness). */
  predicate ShowsError(r: ActionResult) {
    r.error.Some? && r.error.value != ""
  }

  /** One line of the results field: it opens with the status label, then the
      server name after a dash. */
  function ResultLine(r: ActionResult): (line: string)
    ensures StatusLabel(StatusName(r.status)) + " - " + r.server <= line
    ensures |line| > 0 && line[0] == StatusLabel(StatusName(r.status))[0]
  {
    StatusLabel(StatusName(r.status)) + " - " + r.server + (if ShowsError(r) then "\n   " + r.error.value else "")
  }

  /** `lines.join('\n')`: a single line as it is, more lines with a newline between
      each two. The text opens with the first line. */
  function Join(lines: seq<string>): (text: string)
    ensures lines == [] ==> text == ""
    ensures lines != [] ==> lines[0] <= text
  {
    if lines == [] then ""
    else if |lines| == 1 then lines[0]
    else
      var init := lines[..|lines| - 1];
      assert init[0] == lines[0];
      var text := Join(init) + "\n" + lines[|lines| - 1];
      assert Join(init) <= text;
      text
  }

  /** `results.map(...)`. */
  function Lines(rs: seq<ActionResult>): seq<string> {
    seq(|rs|, i requires 0 <= i < |rs| => ResultLine(rs[i]))
  }

  /** `results.map(...).join('\n')`. Non-empty exactly when there is a record, and
      then it opens with the first record's line, so with its status label. */
  function ResultsText(rs: seq<ActionResult>): (text: string)
    ensures text == "" <==> rs == []
    ensures rs != [] ==> ResultLine(rs[0]) <= text && StatusLabel(StatusName(rs[0].status)) <= text
  {
    var lines := Lines(rs);
    assert rs != [] ==> lines[0] == ResultLine(rs[0]);
    Join(lines)
  }

  /** `resultText || 'No results'`: the value of the results field, never empty
      (an embed field needs a value). */
  function ResultsField(rs: seq<ActionResult>): (v: string)
    ensures v != ""
    ensures rs == [] ==> v == "No results"
    ensures rs != [] ==> v == ResultsText(rs)
  {
    var text := ResultsText(rs);
    if text == "" then "No results" else text
  }

  /** Every status a handler reports has its own label: none falls back to the
      unknown label, and no two statuses share one. */
  lemma LabelsIdentifyStatus(s1: Status, s2: Status)
    ensures StatusLabel(StatusName(s1)) != UNKNOWN_LABEL
    ensures StatusLabel(StatusName(s1)) == StatusLabel(StatusName(s2)) ==> s1 == s2
  {
    assert StatusName(s1) in KNOWN_NAMES;
  }

  /** The field reads "No results" exactly when there are no records: no label
      starts with the letter `N`. */
  lemma NoResultsIffEmpty(rs: seq<ActionResult>)
    ensures ResultsField(rs) == "No results" <==> rs == []
  {
    if rs != [] {
      var icon := StatusLabel(StatusName(rs[0].status));
      assert icon[0] != 'N';
      assert ResultsField(rs)[0] != "No results"[0];
    }
  }

  /** Joining distributes over concatenation: two non-empty runs of lines join to
      the two texts with a newline between. */
  lemma {:induction false} JoinAppend(a: seq<string>, b: seq<string>)
    requires a != [] && b != []
    ensures Join(a + b) == Join(a) + "\n" + Join(b)
    decreases |b|
  {
    var ab := a + b;
    var last := b[|b| - 1];
    assert ab[|ab| - 1] == last;
    if |b| == 1 {
      assert ab[..|ab| - 1] == a;
    } else {
      var init := b[..|b| - 1];
      assert ab[..|ab| - 1] == a + init;
      var x, y := Join(a), Join(init);
      calc {
        Join(ab);
        Join(a + init) + "\n" + last;
        { JoinAppend(a, init); }
        (x + "\n" + y) + "\n" + last;
        x + "\n" + (y + "\n" + last);
        { assert b[..|b| - 1] == init; }
        x + "\n" + Join(b);
      }
    }
  }

  /** The results text of two non-empty runs of records is their two texts with a
      newline between: each record contributes its line, in order. */
  lemma ResultsTextAppend(a: seq<ActionResult>, b: seq<ActionResult>)
    requires a != [] && b != []
    ensures ResultsText(a + b) == ResultsText(a) + "\n" + ResultsText(b)
  {
    var la, lb := Lines(a), Lines(b);
    forall i | 0 <= i < |a + b|
      ensures Lines(a + b)[i] == (la + lb)[i]
    {
      if i < |a| {
        assert (a + b)[i] == a[i];
      } else {
        assert (a + b)[i] == b[i - |a|];
      }
    }
    assert Lines(a + b) == la + lb;
    JoinAppend(la, lb);
  }

  /** For a server name without a line break, a record's line breaks exactly when
      its error is shown, and the error can be read back from the line: the first
      line break comes right after the label and the server name, and the error is
      everything after the three-space indent that follows it. */
  lemma ErrorReadBack(r: ActionResult)
    requires '\n' !in r.server
    ensures ShowsError(r) <==> '\n' in ResultLine(r)
    ensures ShowsError(r) ==>
      var n := |StatusLabel(StatusName(r.status))| + 3 + |r.server|;
      n + 4 <= |ResultLine(r)| && '\n' !in ResultLine(r)[..n] &&
      ResultLine(r)[n..n + 4] == "\n   " && ResultLine(r)[n + 4..] == r.error.value
  {
    var head := StatusLabel(StatusName(r.status)) + " - " + r.server;
    assert '\n' !in head by {
      forall k | 0 <= k < |head|
        ensures head[k] != '\n'
      {
        var icon := StatusLabel(StatusName(r.status));
        if k < |icon| {
          assert head[k] == icon[k];
        } else if k >= |icon| + 3 {
          assert head[k] == r.server[k - |icon| - 3];
        }
      }
    }
    if ShowsError(r) {
      var line := ResultLine(r);
      assert line == head + "\n   " + r.error.value;
      assert line[..|head|] == head;
      assert line[|head|] == '\n';
    } else {
      assert ResultLine(r) == head;
    }
  }

  /** The line of a call that threw shows that call's message: for a guild name
      without a line break, the line breaks exactly when the message is non-empty,
      and the message is then everything after the indent. */
  lemma FailedLineShowsMessage(g: Guild, call: Call)
    requires call in g.faults && '\n' !in g.name
    ensures var line, msg := ResultLine(Failed(g, call)), g.faults[call];
      "⚠️ Error - " + g.name <= line &&
      (msg != "" <==> '\n' in line) &&
      (msg != "" ==> line[|"⚠️ Error - " + g.name| + 4..] == msg) &&
      (msg == "" ==> line == "⚠️ Error - " + g.name)
  {
    ErrorReadBack(Failed(g, call));
  }
}
