/**
 * The floating chat widget: the canned-reply selector, an ordered chain of
 * lower-case substring rules, and the send guard that appends the visitor's
 * message at once and the bot's reply when the typing delay fires.
 */
module Chatbot {
  import opened Text

  const Greeting: string := "Hi! I'm Rudraksh's AI assistant. I can help answer questions about his skills, projects, experience, and more. What would you like to know?"

  /** The seven canned answers, by topic; `ReplyText` gives the words of each. */
  datatype Reply = Skills | Projects | Experience | ContactInfo | Blogs | Hello | Fallback

  function ReplyText(r: Reply): string {
    match r
    case Skills => "Rudraksh specializes in full-stack development with expertise in React, Next.js, Node.js, TypeScript, Python, and modern databases like MongoDB and PostgreSQL. He's also experienced with cloud platforms, DevOps tools, and modern development practices."
    case Projects => "Rudraksh has worked on various impressive projects including SaaS applications, e-commerce platforms, and AI-powered tools. His notable projects include real-time collaboration tools, modern web applications with advanced features, and scalable backend systems. Check out the Projects section for detailed information!"
    case Experience => "Rudraksh is a passionate full-stack developer with experience in building modern web applications. He has expertise in both frontend and backend development, with a focus on creating scalable, user-friendly solutions using cutting-edge technologies."
    case ContactInfo => "You can reach out to Rudraksh through the contact form on this website, or connect via LinkedIn (linkedin.com/in/rudraksh-gupta-664b591b2/) or email (rudrakshgupta40@gmail.com). He's always open to discussing new opportunities and collaborations!"
    case Blogs => "Rudraksh shares his knowledge through technical blogs on Hashnode (rudrakshgupta40.hashnode.dev). He writes about web development, best practices, and emerging technologies. Check out the Blogs section for his latest articles!"
    case Hello => "Hello! Great to meet you! I'm here to help you learn more about Rudraksh's work and expertise. What specific information are you looking for?"
    case Fallback => "That's an interesting question! For detailed information about Rudraksh's work, skills, and projects, I'd recommend exploring the different sections of this portfolio. If you have specific questions about his experience or want to get in touch, feel free to ask!"
  }

  /** The topic the selector answers: lower-case once, then six `includes` tests in order. */
  function SelectReply(userMessage: string): Reply {
    var message := Lower(userMessage);
    if Contains(message, "skill") || Contains(message, "technology") || Contains(message, "tech") then Skills
    else if Contains(message, "project") || Contains(message, "work") || Contains(message, "portfolio") then Projects
    else if Contains(message, "experience") || Contains(message, "background") then Experience
    else if Contains(message, "contact") || Contains(message, "hire") || Contains(message, "collaborate") then ContactInfo
    else if Contains(message, "blog") || Contains(message, "article") || Contains(message, "writing") then Blogs
    else if Contains(message, "hello") || Contains(message, "hi") || Contains(message, "hey") then Hello
    else Fallback
  }

  /** `getBotResponse`: the text of the selected answer. */
  function GetBotResponse(userMessage: string): string {
    ReplyText(SelectReply(userMessage))
  }

  /** A text the bot can answer with. */
  ghost predicate IsCanned(text: string) {
    exists r: Reply :: ReplyText(r) == text
  }

  // ---- the same selector as a rule table ----

  /** One rule: any of its keywords as a substring selects its reply. */
  datatype Rule = Rule(keywords: seq<string>, reply: Reply)

  const Rules: seq<Rule> := [
    Rule(["skill", "technology", "tech"], Skills),
    Rule(["project", "work", "portfolio"], Projects),
    Rule(["experience", "background"], Experience),
    Rule(["contact", "hire", "collaborate"], ContactInfo),
    Rule(["blog", "article", "writing"], Blogs),
    Rule(["hello", "hi", "hey"], Hello)
  ]

  predicate Hits(rule: Rule, message: string) {
    exists k :: 0 <= k < |rule.keywords| && Contains(message, rule.keywords[k])
  }

  /**
   * The reply of the first rule from index `i` on whose keywords hit the
   * message, or the default when none does.
   */
  function FirstMatch(rules: seq<Rule>, message: string, i: nat): (r: Reply)
    requires i <= |rules|
    ensures (forall j :: i <= j < |rules| ==> !Hits(rules[j], message)) ==> r == Fallback
    ensures forall k :: (i <= k < |rules| && Hits(rules[k], message) &&
                         (forall j :: i <= j < k ==> !Hits(rules[j], message))) ==> r == rules[k].reply
    decreases |rules| - i
  {
    if i == |rules| then Fallback
    else if Hits(rules[i], message) then rules[i].reply
    else FirstMatch(rules, message, i + 1)
  }

  lemma HitsOf3(a: string, b: string, c: string, reply: Reply, m: string)
    ensures Hits(Rule([a, b, c], reply), m) <==> Contains(m, a) || Contains(m, b) || Contains(m, c)
  {
    var ks := [a, b, c];
    if Contains(m, a) { assert Contains(m, ks[0]); }
    if Contains(m, b) { assert Contains(m, ks[1]); }
    if Contains(m, c) { assert Contains(m, ks[2]); }
  }

  lemma HitsOf2(a: string, b: string, reply: Reply, m: string)
    ensures Hits(Rule([a, b], reply), m) <==> Contains(m, a) || Contains(m, b)
  {
    var ks := [a, b];
    if Contains(m, a) { assert Contains(m, ks[0]); }
    if Contains(m, b) { assert Contains(m, ks[1]); }
  }

  /** Each rule of the table hits exactly when one of its `includes` tests does. */
  lemma RulesHit(m: string)
    ensures Hits(Rules[0], m) <==> Contains(m, "skill") || Contains(m, "technology") || Contains(m, "tech")
    ensures Hits(Rules[1], m) <==> Contains(m, "project") || Contains(m, "work") || Contains(m, "portfolio")
    ensures Hits(Rules[2], m) <==> Contains(m, "experience") || Contains(m, "background")
    ensures Hits(Rules[3], m) <==> Contains(m, "contact") || Contains(m, "hire") || Contains(m, "collaborate")
    ensures Hits(Rules[4], m) <==> Contains(m, "blog") || Contains(m, "article") || Contains(m, "writing")
    ensures Hits(Rules[5], m) <==> Contains(m, "hello") || Contains(m, "hi") || Contains(m, "hey")
  {
    assert Rules[0] == Rule(["skill", "technology", "tech"], Skills);
    assert Rules[1] == Rule(["project", "work", "portfolio"], Projects);
    assert Rules[2] == Rule(["experience", "background"], Experience);
    assert Rules[3] == Rule(["contact", "hire", "collaborate"], ContactInfo);
    assert Rules[4] == Rule(["blog", "article", "writing"], Blogs);
    assert Rules[5] == Rule(["hello", "hi", "hey"], Hello);
    HitsOf3("skill", "technology", "tech", Skills, m);
    HitsOf3("project", "work", "portfolio", Projects, m);
    HitsOf2("experience", "background", Experience, m);
    HitsOf3("contact", "hire", "collaborate", ContactInfo, m);
    HitsOf3("blog", "article", "writing", Blogs, m);
    HitsOf3("hello", "hi", "hey", Hello, m);
  }

  lemma RuleReplies()
    ensures |Rules| == 6
    ensures Rules[0].reply == Skills && Rules[1].reply == Projects && Rules[2].reply == Experience
    ensures Rules[3].reply == ContactInfo && Rules[4].reply == Blogs && Rules[5].reply == Hello
  {
  }

  /** The table read rule by rule. */
  lemma RulesInOrder(m: string)
    ensures FirstMatch(Rules, m, 0) ==
      if Hits(Rules[0], m) then Rules[0].reply
      else if Hits(Rules[1], m) then Rules[1].reply
      else if Hits(Rules[2], m) then Rules[2].reply
      else if Hits(Rules[3], m) then Rules[3].reply
      else if Hits(Rules[4], m) then Rules[4].reply
      else if Hits(Rules[5], m) then Rules[5].reply
      else Fallback
  {
    var rs := Rules;
    assert |rs| == 6;
    assert FirstMatch(rs, m, 0) == if Hits(rs[0], m) then rs[0].reply else FirstMatch(rs, m, 1);
    assert FirstMatch(rs, m, 1) == if Hits(rs[1], m) then rs[1].reply else FirstMatch(rs, m, 2);
    assert FirstMatch(rs, m, 2) == if Hits(rs[2], m) then rs[2].reply else FirstMatch(rs, m, 3);
    assert FirstMatch(rs, m, 3) == if Hits(rs[3], m) then rs[3].reply else FirstMatch(rs, m, 4);
    assert FirstMatch(rs, m, 4) == if Hits(rs[4], m) then rs[4].reply else FirstMatch(rs, m, 5);
    assert FirstMatch(rs, m, 5) == if Hits(rs[5], m) then rs[5].reply else FirstMatch(rs, m, 6);
    assert FirstMatch(rs, m, 6) == Fallback;
  }

  /**
   * The if-chain is the rule table read first-match-wins: the answer is the
   * reply of the first rule with a keyword in the lower-cased message, and
   * the default when none has.
   */
  lemma SelectReplyIsFirstMatch(userMessage: string)
    ensures SelectReply(userMessage) == FirstMatch(Rules, Lower(userMessage), 0)
  {
    RulesHit(Lower(userMessage));
    RulesInOrder(Lower(userMessage));
    RuleReplies();
  }

  /** Upper and lower case select the same reply. */
  lemma CaseInsensitive(userMessage: string)
    ensures SelectReply(Lower(userMessage)) == SelectReply(userMessage)
  {
    LowerIdempotent(userMessage);
  }

  /** Substring, not word, matching: "this" is greeted because it contains "hi". */
  lemma ThisIsGreeted()
    ensures SelectReply("this") == Hello
  {
    var m := "this";
    LowerNoUpper(m);
    NotContainsMissingChar(m, "skill", 1);
    NotContainsMissingChar(m, "technology", 1);
    NotContainsMissingChar(m, "tech", 1);
    NotContainsMissingChar(m, "project", 0);
    NotContainsMissingChar(m, "work", 0);
    NotContainsMissingChar(m, "portfolio", 0);
    NotContainsMissingChar(m, "experience", 0);
    NotContainsMissingChar(m, "background", 0);
    NotContainsMissingChar(m, "contact", 0);
    NotContainsMissingChar(m, "hire", 2);
    NotContainsMissingChar(m, "collaborate", 0);
    NotContainsMissingChar(m, "blog", 0);
    NotContainsMissingChar(m, "article", 0);
    NotContainsMissingChar(m, "writing", 0);
    NotContainsMissingChar(m, "hello", 1);
    ContainsAt(m, "hi", 1);
  }

  /** "network" gets the projects reply because it contains "work". */
  lemma NetworkGetsProjects()
    ensures SelectReply("network") == Projects
  {
    var m := "network";
    LowerNoUpper(m);
    NotContainsMissingChar(m, "skill", 0);
    NotContainsMissingChar(m, "technology", 2);
    NotContainsMissingChar(m, "tech", 2);
    ContainsAt(m, "work", 3);
  }

  // ---- the widget's message list ----

  /** A chat bubble; the clock-derived id and timestamp are not modelled. */
  datatype Message = Message(text: string, isBot: bool)

  function UserCount(ms: seq<Message>): nat {
    if ms == [] then 0 else UserCount(ms[..|ms| - 1]) + (if ms[|ms| - 1].isBot then 0 else 1)
  }

  function BotCount(ms: seq<Message>): nat {
    if ms == [] then 0 else BotCount(ms[..|ms| - 1]) + (if ms[|ms| - 1].isBot then 1 else 0)
  }

  lemma CountsSnoc(ms: seq<Message>, m: Message)
    ensures UserCount(ms + [m]) == UserCount(ms) + (if m.isBot then 0 else 1)
    ensures BotCount(ms + [m]) == BotCount(ms) + (if m.isBot then 1 else 0)
  {
    assert (ms + [m])[..|ms|] == ms;
  }

  class ChatWidget {
    var messages: seq<Message>
    var inputValue: string
    var isTyping: bool
    /** The inputs captured by typing-delay callbacks that have not fired yet, oldest first. */
    var pending: seq<string>

    /**
     * The greeting comes first; every visitor message is non-blank; every
     * later bot message is a canned reply; and each visitor message is
     * either answered or still waiting for its callback.
     */
    ghost predicate Valid()
      reads this
    {
      && |messages| >= 1
      && messages[0] == Message(Greeting, true)
      && (forall i :: 0 <= i < |messages| && !messages[i].isBot ==> !IsBlank(messages[i].text))
      && (forall i :: 1 <= i < |messages| && messages[i].isBot ==> IsCanned(messages[i].text))
      && (forall k :: 0 <= k < |pending| ==> !IsBlank(pending[k]))
      && UserCount(messages) + 1 == BotCount(messages) + |pending|
    }

    constructor()
      ensures Valid()
      ensures messages == [Message(Greeting, true)] && inputValue == "" && !isTyping && pending == []
    {
      messages := [Message(Greeting, true)];
      inputValue := "";
      isTyping := false;
      pending := [];
      new;
      assert messages == [] + [Message(Greeting, true)];
    }

    /** The input box's change handler. */
    method SetInput(value: string)
      modifies this
      ensures inputValue == value
      ensures messages == old(messages) && isTyping == old(isTyping) && pending == old(pending)
    {
      inputValue := value;
    }

    /**
     * `handleSendMessage`: nothing happens when the input trims to empty;
     * otherwise the untrimmed input is appended as a visitor message, the
     * input is cleared, the typing flag is raised and a reply is scheduled
     * for the input as it was.
     */
    method SendMessage()
      requires Valid()
      modifies this
      ensures Valid()
      ensures IsBlank(old(inputValue)) ==>
        messages == old(messages) && inputValue == old(inputValue) &&
        isTyping == old(isTyping) && pending == old(pending)
      ensures !IsBlank(old(inputValue)) ==>
        messages == old(messages) + [Message(old(inputValue), false)] &&
        inputValue == "" && isTyping && pending == old(pending) + [old(inputValue)]
    {
      TrimEmptyIffBlank(inputValue);
      if Trim(inputValue) == "" {
        return;
      }
      var userMessage := Message(inputValue, false);
      CountsSnoc(messages, userMessage);
      messages := messages + [userMessage];
      pending := pending + [inputValue];
      inputValue := "";
      isTyping := true;
    }

    /** The typing-delay callback of the oldest pending send: append the canned reply and lower the flag. */
    method DeliverReply()
      requires Valid() && pending != []
      modifies this
      ensures Valid()
      ensures messages == old(messages) + [Message(GetBotResponse(old(pending[0])), true)]
      ensures pending == old(pending[1..]) && inputValue == old(inputValue) && !isTyping
    {
      var botResponse := Message(GetBotResponse(pending[0]), true);
      CountsSnoc(messages, botResponse);
      messages := messages + [botResponse];
      pending := pending[1..];
      isTyping := false;
    }
  }
}
