/**
 * The scrum report window: the text report built from the window's
 * fields, and the Slack sender that holds a webhook URL, a channel and a
 * user name and turns a message into a request payload.
 */
module ScrumReport {

  import opened Wrappers

  const ReportTitle: string := "Daily Scrum Report\n"

  /** "- " + item + "\n" for every item, in list order. */
  function TaskLines(items: seq<string>): string {
    if items == [] then ""
    else TaskLines(items[..|items| - 1]) + "- " + items[|items| - 1] + "\n"
  }

  /** Rendering a list is rendering its parts one after the other. */
  lemma {:induction false} TaskLinesAppend(a: seq<string>, b: seq<string>)
    ensures TaskLines(a + b) == TaskLines(a) + TaskLines(b)
  {
    if b == [] {
      assert a + b == a;
    } else {
      var b' := b[..|b| - 1];
      assert (a + b)[..|a + b| - 1] == a + b';
      assert (a + b)[|a + b| - 1] == b[|b| - 1];
      TaskLinesAppend(a, b');
    }
  }

  /** The number of characters of the rendered items: three per item besides the item text. */
  function RenderedLength(items: seq<string>): nat {
    if items == [] then 0 else RenderedLength(items[..|items| - 1]) + |items[|items| - 1]| + 3
  }

  /** The rendered list renders each item once, on a line of its own: one "- " and one "\n" per item. */
  lemma {:induction false} TaskLinesShape(items: seq<string>)
    ensures TaskLines([]) == ""
    ensures |items| == 1 ==> TaskLines(items) == "- " + items[0] + "\n"
    ensures |TaskLines(items)| == RenderedLength(items)
  {
    if items != [] {
      TaskLinesShape(items[..|items| - 1]);
      assert |items| == 1 ==> items[..0] == [];
    }
  }

  /** Everything between the title and the notes, section by section. */
  function ReportSections(
    date: string, time: string, gameName: string,
    yesterday: string, today: string, blockers: string): string
  {
    "Date: [" + date + "]\n" +
    "Time: [" + time + "]\n\n" +
    "GameName: " + gameName + "\n\n" +
    "1. What did I do yesterday?\n" + yesterday + "\n" +
    "2. What will I do today?\n" + today + "\n" +
    "3. Any blockers or impediments?\n" + blockers + "\n\n" +
    "Notes:\n"
  }

  /** The report text: the title, the sections with each list rendered by TaskLines, and the notes last. */
  function Report(
    date: string, time: string, gameName: string,
    yesterday: seq<string>, today: seq<string>, blockers: seq<string>, notes: string): (r: string)
    ensures |r| >= |ReportTitle| + |notes|
    ensures r[..|ReportTitle|] == ReportTitle
    ensures r[|r| - |notes|..] == notes
  {
    var head := ReportTitle + ReportSections(date, time, gameName, TaskLines(yesterday), TaskLines(today), TaskLines(blockers));
    assert head[..|ReportTitle|] == ReportTitle;
    head + notes
  }

  /** The JSON body PostMessage serialises. */
  datatype SlackPayload = SlackPayload(text: string, channel: Option<string>, username: Option<string>)

  /** What PostMessage does before the transport: stop on a missing URL, or POST the payload to the URL. */
  datatype PostPlan =
    | MissingWebhookUrl
    | PostJson(url: string, payload: SlackPayload)

  /** The sender's strings may be null (None), as C# strings may be. */
  class SlackMessageSender {
    var webhookUrl: Option<string>
    var channel: Option<string>
    var username: Option<string>

    constructor (webhookUrl: Option<string>, channel: Option<string>, username: Option<string>)
      ensures this.webhookUrl == webhookUrl && this.channel == channel && this.username == username
    {
      this.webhookUrl := webhookUrl;
      this.channel := channel;
      this.username := username;
    }

    method SetWebhookUrl(webhookUrl: Option<string>)
      modifies this`webhookUrl
      ensures this.webhookUrl == webhookUrl
      ensures channel == old(channel) && username == old(username)
    {
      this.webhookUrl := webhookUrl;
    }

    method SetChannel(channel: Option<string>)
      modifies this`channel
      ensures this.channel == channel
      ensures webhookUrl == old(webhookUrl) && username == old(username)
    {
      this.channel := channel;
    }

    method SetUsername(username: Option<string>)
      modifies this`username
      ensures this.username == username
      ensures webhookUrl == old(webhookUrl) && channel == old(channel)
    {
      this.username := username;
    }

    /** The guard (string.IsNullOrEmpty) and the payload; the send itself is the host's. */
    method PostMessage(message: string) returns (plan: PostPlan)
      ensures plan.MissingWebhookUrl? <==> webhookUrl == None || webhookUrl == Some("")
      ensures plan.PostJson? ==>
        && Some(plan.url) == webhookUrl
        && plan.payload == SlackPayload(message, channel, username)
    {
      if webhookUrl.None? || |webhookUrl.value| == 0 {
        return MissingWebhookUrl;
      }
      var payload := SlackPayload(text := message, channel := this.channel, username := this.username);
      plan := PostJson(webhookUrl.value, payload);
    }
  }

  class ScrumReportWindow {
    var date: string
    var time: string
    var gameName: string
    var yesterday: seq<string>
    var today: seq<string>
    var blockers: seq<string>
    var notes: string
    var webhookUrl: string
    var slackChannel: string
    var slackUsername: string
    var slackMessageSender: SlackMessageSender?

    /** The field initialisers. */
    constructor ()
      ensures date == "" && time == "" && gameName == "" && notes == ""
      ensures yesterday == [] && today == [] && blockers == []
      ensures webhookUrl == "YOUR_WEBHOOK_URL_HERE" && slackChannel == "#your-channel" && slackUsername == "UnityBot"
      ensures slackMessageSender == null
    {
      date, time, gameName := "", "", "";
      yesterday, today, blockers := [], [], [];
      notes := "";
      webhookUrl := "YOUR_WEBHOOK_URL_HERE";
      slackChannel := "#your-channel";
      slackUsername := "UnityBot";
      slackMessageSender := null;
    }

    /**
     * OnEnable with the clock and EditorPrefs as inputs: now gives the
     * formatted date and time, storedGameName the saved game name if the
     * key exists. A fresh sender gets the window's current Slack fields.
     */
    method OnEnable(nowDate: string, nowTime: string, storedGameName: Option<string>)
      modifies this
      ensures date == nowDate && time == nowTime
      ensures gameName == if storedGameName.Some? then storedGameName.value else old(gameName)
      ensures yesterday == old(yesterday) && today == old(today) && blockers == old(blockers) && notes == old(notes)
      ensures webhookUrl == old(webhookUrl) && slackChannel == old(slackChannel) && slackUsername == old(slackUsername)
      ensures slackMessageSender != null && fresh(slackMessageSender)
      ensures slackMessageSender.webhookUrl == Some(webhookUrl)
      ensures slackMessageSender.channel == Some(slackChannel)
      ensures slackMessageSender.username == Some(slackUsername)
    {
      date := nowDate;
      time := nowTime;
      if storedGameName.Some? {
        gameName := storedGameName.value;
      }
      slackMessageSender := new SlackMessageSender(Some(webhookUrl), Some(slackChannel), Some(slackUsername));
    }

    /** GenerateReport reads the fields, changes none of them, and yields Report of them. */
    method GenerateReport() returns (report: string)
      ensures report == Report(date, time, gameName, yesterday, today, blockers, notes)
    {
      var yesterdayTasks := "";
      var i := 0;
      while i < |yesterday|
        invariant 0 <= i <= |yesterday|
        invariant yesterdayTasks == TaskLines(yesterday[..i])
      {
        assert yesterday[..i + 1][..i] == yesterday[..i];
        yesterdayTasks := yesterdayTasks + "- " + yesterday[i] + "\n";
        i := i + 1;
      }
      assert yesterday[..i] == yesterday;

      var todayTasks := "";
      i := 0;
      while i < |today|
        invariant 0 <= i <= |today|
        invariant todayTasks == TaskLines(today[..i])
      {
        assert today[..i + 1][..i] == today[..i];
        todayTasks := todayTasks + "- " + today[i] + "\n";
        i := i + 1;
      }
      assert today[..i] == today;

      var blockersText := "";
      i := 0;
      while i < |blockers|
        invariant 0 <= i <= |blockers|
        invariant blockersText == TaskLines(blockers[..i])
      {
        assert blockers[..i + 1][..i] == blockers[..i];
        blockersText := blockersText + "- " + blockers[i] + "\n";
        i := i + 1;
      }
      assert blockers[..i] == blockers;

      report := ReportTitle + ReportSections(date, time, gameName, yesterdayTasks, todayTasks, blockersText) + notes;
    }

    /**
     * Builds the report and pushes the window's Slack fields into the
     * sender; the coroutine that would post the report is commented out
     * in the source, so nothing is sent.
     */
    method SendReportToSlack() returns (report: string)
      requires slackMessageSender != null
      modifies slackMessageSender
      ensures report == Report(date, time, gameName, yesterday, today, blockers, notes)
      ensures slackMessageSender.webhookUrl == Some(webhookUrl)
      ensures slackMessageSender.channel == Some(slackChannel)
      ensures slackMessageSender.username == Some(slackUsername)
    {
      report := GenerateReport();
      slackMessageSender.SetWebhookUrl(Some(webhookUrl));
      slackMessageSender.SetChannel(Some(slackChannel));
      slackMessageSender.SetUsername(Some(slackUsername));
    }
  }
}
