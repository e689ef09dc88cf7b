/**
 * notification/webhook/predefined.go: the colours and the predefined "slack" template, which a
 * webhook's own template can include. The template reads `.Type` (piped through sprig's
 * `upper` and `lower`) and the name and phase of `.Backup`. The notifier of this revision
 * renders only its two default templates, so nothing else in the model uses this file.
 */
module Predefined {
  import opened Velero

  const WarningColor := "#ebab34"
  const ErrorColor := "#eb4634"

  function UpperChar(c: char): char {
    if 'a' <= c <= 'z' then (c as int - 32) as char else c
  }

  function LowerChar(c: char): char {
    if 'A' <= c <= 'Z' then (c as int + 32) as char else c
  }

  /** sprig's `upper` on ASCII letters. */
  function Upper(s: string): (r: string)
    ensures |r| == |s|
  {
    seq(|s|, i requires 0 <= i < |s| => UpperChar(s[i]))
  }

  /** sprig's `lower` on ASCII letters. */
  function Lower(s: string): (r: string)
    ensures |r| == |s|
  {
    seq(|s|, i requires 0 <= i < |s| => LowerChar(s[i]))
  }

  /** Lower-casing forgets any earlier upper-casing. */
  lemma LowerOfUpper(s: string)
    ensures Lower(Upper(s)) == Lower(s)
  {
  }

  /** Upper-casing twice is upper-casing once. */
  lemma UpperIdempotent(s: string)
    ensures Upper(Upper(s)) == Upper(s)
  {
  }

  /** The title line: `<!channel> Velero *{{ .Type | upper }}*`. */
  function Title(typ: string): string {
    "<!channel> Velero *" + Upper(typ) + "*"
  }

  /** The colour action: the warning colour exactly when the lower-cased type is "warning". */
  function Color(typ: string): (c: string)
    ensures c == WarningColor <==> Lower(typ) == "warning"
    ensures c == WarningColor || c == ErrorColor
  {
    if Lower(typ) == "warning" then "#ebab34" else "#eb4634"
  }

  /** The attachment line: `Backup '<name>' is in state '<phase>'`. */
  function StateLine(b: Backup): string {
    "Backup '" + b.name + "' is in state '" + b.phase + "'"
  }

  /** The literal text of the "slack" template around its three actions. */
  const SlackHead := "\n{\n\t\"text\": \""
  const SlackBeforeColor := "\",\n\t\"attachments\": [\n\t\t\t{\n\t\t\t\t\t\"color\": \""
  const SlackBeforeState := "\",\n\t\t\t\t\t\"text\": \""
  const SlackTail := "\"\n\t\t\t}\n\t]\n}\n"

  /** What the "slack" template renders: the text of its `define` block with the actions
      filled in. */
  function Slack(typ: string, b: Backup): string {
    SlackHead + Title(typ) + SlackBeforeColor + Color(typ) + SlackBeforeState + StateLine(b) + SlackTail
  }

  /** The colour does not depend on how the type is capitalised. */
  lemma ColorIgnoresCase(typ: string)
    ensures Color(Upper(typ)) == Color(typ)
  {
    LowerOfUpper(typ);
  }

  /** The warning case: the title `*WARNING*` and the warning colour. */
  lemma SlackWarning()
    ensures Title("warning") == "<!channel> Velero *WARNING*" && Color("warning") == WarningColor
  {
    assert Upper("warning") == "WARNING";
    assert Lower("warning") == "warning";
  }

  /** The error case: the title `*ERROR*` and the error colour. */
  lemma SlackError()
    ensures Title("error") == "<!channel> Velero *ERROR*" && Color("error") == ErrorColor
  {
    assert Upper("error") == "ERROR";
    assert Lower("error") == "error";
  }

  /** In a concatenation of seven parts, the second, fourth and sixth sit right after the
      parts before them. */
  lemma {:induction false} Interleaved(h1: string, t: string, h2: string, c: string, h3: string, l: string, h4: string)
    ensures var s := h1 + t + h2 + c + h3 + l + h4;
      && s[|h1|..|h1| + |t|] == t
      && s[|h1| + |t| + |h2|..|h1| + |t| + |h2| + |c|] == c
      && s[|h1| + |t| + |h2| + |c| + |h3|..|h1| + |t| + |h2| + |c| + |h3| + |l|] == l
  {
    var s := h1 + t + h2 + c + h3 + l + h4;
    assert s == h1 + t + (h2 + c + h3 + l + h4);
    Middle(h1, t, h2 + c + h3 + l + h4);
    assert s == (h1 + t + h2) + c + (h3 + l + h4);
    Middle(h1 + t + h2, c, h3 + l + h4);
    Middle(h1 + t + h2 + c + h3, l, h4);
  }

  /** The middle part of a concatenation sits right after the first. */
  lemma Middle(x: string, y: string, z: string)
    ensures (x + y + z)[|x|..|x| + |y|] == y
  {
    assert forall i :: 0 <= i < |y| ==> (x + y + z)[|x| + i] == y[i];
  }

  /** The rendered payload carries the title, the colour and the state line at fixed offsets
      after one another, so a reader of the JSON finds each field's value unchanged. */
  lemma SlackFields(typ: string, b: Backup)
    ensures var s, t := Slack(typ, b), Title(typ);
      && s[13..13 + |t|] == t
      && s[13 + |t| + 41..13 + |t| + 41 + 7] == Color(typ)
      && s[13 + |t| + 41 + 7 + 17..13 + |t| + 41 + 7 + 17 + |StateLine(b)|] == StateLine(b)
  {
    var h1, h2, h3, h4 := SlackHead, SlackBeforeColor, SlackBeforeState, SlackTail;
    var t, c, l := Title(typ), Color(typ), StateLine(b);
    assert |h1| == 13 && |h2| == 41 && |h3| == 17;
    assert |c| == 7 by {
      assert |WarningColor| == 7 && |ErrorColor| == 7;
    }
    Interleaved(h1, t, h2, c, h3, l, h4);
  }
}
