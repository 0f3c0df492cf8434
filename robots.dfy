/** The robots.txt body of app.py:252-258: a comment line, the default `User-agent: *` group, then
    one group per AI crawler the user allows, each an `Allow: /` rule in the group syntax of
    section 2.2 of RFC 9309. `ParseRobots` reads such a body back into its list of user agents. */
module Robots {
  import opened Text

  const RobotsHeader := "# Generated by LLMO Authority Guard\n\n"
  const AgentPrefix := "User-agent: "
  /** The end of the user-agent line, the rule, and the blank line that ends the group. */
  const AllowAll := "\nAllow: /\n\n"

  /** The crawlers the form offers, in the order their groups are written. */
  const BotOrder := ["GPTBot", "CCBot", "PerplexityBot", "Google-Extended"]

  /** Where `bot` stands in `BotOrder`. */
  function BotRank(bot: string): nat
  {
    if bot == "GPTBot" then 0 else if bot == "CCBot" then 1 else if bot == "PerplexityBot" then 2 else 3
  }

  /** One group allowing `agent` everything. */
  function Group(agent: string): string
  {
    AgentPrefix + agent + AllowAll
  }

  /** The groups for `agents`, in order. */
  function Groups(agents: seq<string>): string
  {
    if agents == [] then "" else Group(agents[0]) + Groups(agents[1..])
  }

  /** The crawlers whose checkbox is ticked, in the order of app.py:255-258. */
  function EnabledBots(gpt: bool, cc: bool, perplexity: bool, googleExtended: bool): (bots: seq<string>)
    ensures |bots| == (if gpt then 1 else 0) + (if cc then 1 else 0) + (if perplexity then 1 else 0)
                      + (if googleExtended then 1 else 0)
    ensures forall i :: 0 <= i < |bots| ==> bots[i] in BotOrder
  {
    (if gpt then ["GPTBot"] else []) + (if cc then ["CCBot"] else [])
    + (if perplexity then ["PerplexityBot"] else []) + (if googleExtended then ["Google-Extended"] else [])
  }

  /** A crawler gets a group exactly when its box is ticked. */
  lemma EnabledBotsExactly(gpt: bool, cc: bool, perplexity: bool, googleExtended: bool)
    ensures var bots := EnabledBots(gpt, cc, perplexity, googleExtended);
            && ("GPTBot" in bots <==> gpt) && ("CCBot" in bots <==> cc)
            && ("PerplexityBot" in bots <==> perplexity) && ("Google-Extended" in bots <==> googleExtended)
  {
    var a := if gpt then ["GPTBot"] else [];
    var b := if cc then ["CCBot"] else [];
    var c := if perplexity then ["PerplexityBot"] else [];
    var d := if googleExtended then ["Google-Extended"] else [];
    assert EnabledBots(gpt, cc, perplexity, googleExtended) == a + b + c + d;
    assert forall x :: x in a + b + c + d <==> x in a || x in b || x in c || x in d;
    assert "GPTBot"[0] == 'G' && "CCBot"[0] == 'C' && "PerplexityBot"[0] == 'P';
    assert "Google-Extended"[1] == 'o' && "GPTBot"[1] == 'P';
  }

  /** The groups follow `BotOrder`: GPTBot, CCBot, PerplexityBot, Google-Extended. */
  lemma EnabledBotsOrdered(gpt: bool, cc: bool, perplexity: bool, googleExtended: bool)
    ensures var bots := EnabledBots(gpt, cc, perplexity, googleExtended);
            forall i, j :: 0 <= i < j < |bots| ==> BotRank(bots[i]) < BotRank(bots[j])
  {
    var a := if gpt then [0] else [];
    var b := if cc then [1] else [];
    var c := if perplexity then [2] else [];
    var d := if googleExtended then [3] else [];
    var bots := EnabledBots(gpt, cc, perplexity, googleExtended);
    assert BotRank("GPTBot") == 0 && BotRank("CCBot") == 1;
    assert BotRank("PerplexityBot") == 2 && BotRank("Google-Extended") == 3;
    assert |bots| == |a + b + c + d|;
    assert forall i :: 0 <= i < |bots| ==> BotRank(bots[i]) == (a + b + c + d)[i];
  }

  /** Appending one agent appends its group. */
  lemma {:induction false} GroupsSnoc(agents: seq<string>, agent: string)
    ensures Groups(agents + [agent]) == Groups(agents) + Group(agent)
  {
    if agents == [] {
      assert agents + [agent] == [agent];
    } else {
      assert (agents + [agent])[1..] == agents[1..] + [agent];
      GroupsSnoc(agents[1..], agent);
    }
  }

  /** Appending the group of one more allowed crawler. */
  lemma AddGroup(body: string, bots: seq<string>, bot: string)
    requires body == RobotsHeader + Groups(["*"] + bots)
    ensures body + Group(bot) == RobotsHeader + Groups(["*"] + (bots + [bot]))
  {
    GroupsSnoc(["*"] + bots, bot);
    assert ["*"] + bots + [bot] == ["*"] + (bots + [bot]);
  }

  /** No agent the form can produce holds a line break. */
  lemma AgentsOnOneLine(agents: seq<string>)
    requires forall i :: 0 <= i < |agents| ==> agents[i] == "*" || agents[i] in BotOrder
    ensures forall i :: 0 <= i < |agents| ==> '\n' !in agents[i]
  {
  }

  /** `bots` with `bot` appended when its box is ticked. */
  function AddIf(bots: seq<string>, on: bool, bot: string): seq<string>
  {
    if on then bots + [bot] else bots
  }

  /** The ticked crawlers are what the four `if`s of app.py:255-258 add, one after the other. */
  lemma EnabledBotsInSteps(gpt: bool, cc: bool, perplexity: bool, googleExtended: bool)
    ensures EnabledBots(gpt, cc, perplexity, googleExtended)
         == AddIf(AddIf(AddIf(AddIf([], gpt, "GPTBot"), cc, "CCBot"), perplexity, "PerplexityBot"),
                  googleExtended, "Google-Extended")
  {
  }

  /** The body starts with the header and the catch-all group. */
  lemma CatchAllFirst(bots: seq<string>)
    ensures RobotsHeader + Group("*") <= RobotsHeader + Groups(["*"] + bots)
  {
    assert Groups(["*"] + bots) == Group("*") + Groups(bots);
  }

  /** The body for any ticking of the boxes opens with the catch-all group and reads back as its agents. */
  lemma RobotsForForm(gpt: bool, cc: bool, perplexity: bool, googleExtended: bool)
    ensures RobotsHeader + Group("*") <= RobotsHeader + Groups(["*"] + EnabledBots(gpt, cc, perplexity, googleExtended))
    ensures ParseRobots(RobotsHeader + Groups(["*"] + EnabledBots(gpt, cc, perplexity, googleExtended)))
         == Some(["*"] + EnabledBots(gpt, cc, perplexity, googleExtended))
  {
    var agents := ["*"] + EnabledBots(gpt, cc, perplexity, googleExtended);
    CatchAllFirst(EnabledBots(gpt, cc, perplexity, googleExtended));
    AgentsOnOneLine(agents);
    RobotsRoundTrip(agents);
  }

  /** app.py:252-258, which builds `robots_content` with `+=`. */
  method BuildRobots(allowGpt: bool, allowCc: bool, allowPerplexity: bool, allowGoogleExt: bool)
    returns (body: string)
    ensures body == RobotsHeader + Groups(["*"] + EnabledBots(allowGpt, allowCc, allowPerplexity, allowGoogleExt))
    ensures RobotsHeader + Group("*") <= body
    ensures ParseRobots(body) == Some(["*"] + EnabledBots(allowGpt, allowCc, allowPerplexity, allowGoogleExt))
  {
    ghost var bots: seq<string> := [];
    body := RobotsHeader;
    body := body + (AgentPrefix + "*" + AllowAll);
    assert ["*"] + bots == ["*"];
    if allowGpt {
      AddGroup(body, bots, "GPTBot");
      body := body + (AgentPrefix + "GPTBot" + AllowAll);
    }
    bots := AddIf(bots, allowGpt, "GPTBot");
    if allowCc {
      AddGroup(body, bots, "CCBot");
      body := body + (AgentPrefix + "CCBot" + AllowAll);
    }
    bots := AddIf(bots, allowCc, "CCBot");
    if allowPerplexity {
      AddGroup(body, bots, "PerplexityBot");
      body := body + (AgentPrefix + "PerplexityBot" + AllowAll);
    }
    bots := AddIf(bots, allowPerplexity, "PerplexityBot");
    if allowGoogleExt {
      AddGroup(body, bots, "Google-Extended");
      body := body + (AgentPrefix + "Google-Extended" + AllowAll);
    }
    bots := AddIf(bots, allowGoogleExt, "Google-Extended");
    EnabledBotsInSteps(allowGpt, allowCc, allowPerplexity, allowGoogleExt);
    RobotsForForm(allowGpt, allowCc, allowPerplexity, allowGoogleExt);
  }

  /** Reads one group off the front of `s`: its user agent and what follows the group. */
  function ParseGroup(s: string): (r: Option<(string, string)>)
    ensures r.Some? ==> |r.value.1| < |s|
  {
    if !(AgentPrefix <= s) then None
    else
      var afterPrefix := s[|AgentPrefix|..];
      var i := IndexOf(afterPrefix, '\n');
      var afterAgent := afterPrefix[i..];
      if !(AllowAll <= afterAgent) then None
      else Some((afterPrefix[..i], afterAgent[|AllowAll|..]))
  }

  /** Reads groups until the text runs out. */
  function ParseGroups(s: string): Option<seq<string>>
    decreases |s|
  {
    if s == [] then Some([])
    else match ParseGroup(s)
      case None => None
      case Some((agent, rest)) =>
        match ParseGroups(rest)
        case None => None
        case Some(agents) => Some([agent] + agents)
  }

  /** Reads a whole robots.txt body back into the user agents of its groups, in order. */
  function ParseRobots(body: string): Option<seq<string>>
  {
    if RobotsHeader <= body then ParseGroups(body[|RobotsHeader|..]) else None
  }

  /** One group is read back as its agent, with the rest of the text untouched. */
  lemma ParseGroupRoundTrip(agent: string, rest: string)
    requires '\n' !in agent
    ensures ParseGroup(Group(agent) + rest) == Some((agent, rest))
  {
    var tail := AllowAll + rest;
    var s := Group(agent) + rest;
    assert s == AgentPrefix + (agent + tail);
    var afterPrefix := s[|AgentPrefix|..];
    assert afterPrefix == agent + tail;
    assert AllowAll[0] == '\n';
    IndexOfPast(agent, tail, '\n');
    assert afterPrefix[..|agent|] == agent && afterPrefix[|agent|..] == tail;
    assert AllowAll <= tail && tail[|AllowAll|..] == rest;
  }

  /** Reading a non-empty text whose first group is `agent` goes on with the text after that group. */
  lemma ParseGroupsStep(s: string, agent: string, rest: string, agents: seq<string>)
    requires s != [] && ParseGroup(s) == Some((agent, rest)) && ParseGroups(rest) == Some(agents)
    ensures ParseGroups(s) == Some([agent] + agents)
  {
  }

  /** A group followed by readable groups is read as its agent followed by theirs. */
  lemma ParseGroupsCons(agent: string, rest: string, agents: seq<string>)
    requires '\n' !in agent && ParseGroups(rest) == Some(agents)
    ensures ParseGroups(Group(agent) + rest) == Some([agent] + agents)
  {
    ParseGroupRoundTrip(agent, rest);
    ParseGroupsStep(Group(agent) + rest, agent, rest, agents);
  }

  /** The groups for `agents` are read back as `agents`. */
  lemma {:induction false} ParseGroupsRoundTrip(agents: seq<string>)
    requires forall i :: 0 <= i < |agents| ==> '\n' !in agents[i]
    ensures ParseGroups(Groups(agents)) == Some(agents)
  {
    if agents == [] {
      assert Groups(agents) == [];
    } else {
      ParseGroupsRoundTrip(agents[1..]);
      ParseGroupsCons(agents[0], Groups(agents[1..]), agents[1..]);
      assert agents == [agents[0]] + agents[1..];
    }
  }

  /** A body built for `agents` is read back as exactly `agents`, so it has one group per agent, in order. */
  lemma RobotsRoundTrip(agents: seq<string>)
    requires forall i :: 0 <= i < |agents| ==> '\n' !in agents[i]
    ensures ParseRobots(RobotsHeader + Groups(agents)) == Some(agents)
  {
    assert (RobotsHeader + Groups(agents))[|RobotsHeader|..] == Groups(agents);
    ParseGroupsRoundTrip(agents);
  }

  /** Scenario: with only GPTBot allowed there are exactly two groups, `*` and `GPTBot`. */
  lemma OnlyGptBot()
    ensures ParseRobots(RobotsHeader + Groups(["*"] + EnabledBots(true, false, false, false)))
         == Some(["*", "GPTBot"])
  {
    assert ["*"] + EnabledBots(true, false, false, false) == ["*", "GPTBot"];
    RobotsRoundTrip(["*", "GPTBot"]);
  }
}
