/** The deployment notification (`sendDeploymentEmail`): the recipient, the
    subject, and the plain-text and HTML bodies built from the deployment's
    data. The bodies are the source's template strings, character for
    character, with the interpolated parts in their places; the transport
    (`sendMail`) is an outside service and not part of this module. */
module Email {
  import opened Common

  datatype DeploymentEmailData = DeploymentEmailData(
    recipientEmail: string,
    projectName: string,
    deploymentUrl: string,
    githubUrl: string,
    features: seq<string>,
    techStack: seq<string>)

  /** The fields of the message handed to the transport (the sender address
      comes from the server's configuration and is left out). */
  datatype Mail = Mail(to: string, subject: string, text: string, html: string)

  // The fixed parts of the two templates, in order.

  const HtmlHead: string :=
    "\n" +
    "    <!DOCTYPE html>\n" +
    "    <html>\n" +
    "    <head>\n" +
    "      <style>\n" +
    "        body { font-family: Arial, sans-serif; line-height: 1.6; color: #333; }\n" +
    "        .container { max-width: 600px; margin: 0 auto; padding: 20px; }\n" +
    "        .header { background: linear-gradient(135deg, #667eea 0%, #764ba2 100%); color: white; padding: 30px; text-align: center; border-radius: 10px 10px 0 0; }\n" +
    "        .content { background: #f9f9f9; padding: 30px; border-radius: 0 0 10px 10px; }\n" +
    "        .button { display: inline-block; padding: 12px 24px; background: #667eea; color: white !important; text-decoration: none; border-radius: 5px; margin: 10px 5px; }\n" +
    "        .feature-list { background: white; padding: 20px; border-radius: 5px; margin: 15px 0; }\n" +
    "        .tech-badge { display: inline-block; background: #e0e7ff; color: #667eea; padding: 5px 10px; border-radius: 3px; margin: 3px; font-size: 12px; }\n" +
    "      </style>\n" +
    "    </head>\n" +
    "    <body>\n" +
    "      <div class=\"container\">\n" +
    "        <div class=\"header\">\n" +
    "          <h1>🎉 项目部署成功！</h1>\n" +
    "          <p>"

  const HtmlBeforeSiteButton: string :=
    "</p>\n" +
    "        </div>\n" +
    "        <div class=\"content\">\n" +
    "          <h2>您的应用已成功部署</h2>\n" +
    "          <p>恭喜！您通过 Claude Code Online 创建的应用已成功部署到生产环境。</p>\n" +
    "\n" +
    "          <div style=\"text-align: center; margin: 30px 0;\">\n" +
    "            <a href=\""

  const HtmlBeforeCodeButton: string :=
    "\" class=\"button\">🌐 访问应用</a>\n" +
    "            <a href=\""

  const HtmlBeforeFeatures: string :=
    "\" class=\"button\">📦 查看代码</a>\n" +
    "          </div>\n" +
    "\n" +
    "          <div class=\"feature-list\">\n" +
    "            <h3>✨ 核心功能</h3>\n" +
    "            <ul>\n" +
    "              "

  const HtmlBeforeTech: string :=
    "\n" +
    "            </ul>\n" +
    "          </div>\n" +
    "\n" +
    "          <div class=\"feature-list\">\n" +
    "            <h3>🛠 技术栈</h3>\n" +
    "            <div>\n" +
    "              "

  const HtmlBeforeSiteLink: string :=
    "\n" +
    "            </div>\n" +
    "          </div>\n" +
    "\n" +
    "          <hr style=\"margin: 30px 0; border: none; border-top: 1px solid #ddd;\">\n" +
    "\n" +
    "          <p style=\"color: #666; font-size: 14px;\">\n" +
    "            <strong>生产环境 URL:</strong> "

  const HtmlBeforeCodeLink: string :=
    "<br>\n" +
    "            <strong>GitHub 仓库:</strong> "

  const HtmlTail: string :=
    "\n" +
    "          </p>\n" +
    "\n" +
    "          <p style=\"color: #999; font-size: 12px; margin-top: 30px;\">\n" +
    "            此邮件由 Claude Code Online 自动生成。<br>\n" +
    "            由 Claude 提供支持 - <a href=\"https://claude.com/claude-code\">Claude Code</a>\n" +
    "          </p>\n" +
    "        </div>\n" +
    "      </div>\n" +
    "    </body>\n" +
    "    </html>\n" +
    "  "

  const TextHead: string :=
    "\n" +
    "🎉 项目部署成功！\n" +
    "\n" +
    "项目名称: "

  const TextBeforeLinks: string :=
    "\n" +
    "\n" +
    "您的应用已成功部署到生产环境。\n" +
    "\n" +
    "访问链接:\n"

  const TextBeforeFeatures: string :=
    "\n" +
    "核心功能:\n"

  const TextBeforeTech: string :=
    "\n" +
    "\n" +
    "技术栈:\n"

  const TextTail: string :=
    "\n" +
    "\n" +
    "---\n" +
    "此邮件由 Claude Code Online 自动生成。\n" +
    "  "

  function Subject(projectName: string): string
  {
    "🎉 " + projectName + " 部署成功 - Claude Code Online"
  }

  /** `features.map(f => `- ${f}`)`. */
  function Bullets(features: seq<string>): (lines: seq<string>)
    ensures |lines| == |features|
    ensures forall k :: 0 <= k < |features| ==> lines[k] == "- " + features[k]
  {
    if |features| == 0 then [] else ["- " + features[0]] + Bullets(features[1..])
  }

  /** The feature list of the text body: one line per feature. */
  function FeatureLines(features: seq<string>): string
  {
    Join("\n", Bullets(features))
  }

  /** The tech stack line of the text body. */
  function TechLine(techStack: seq<string>): string
  {
    Join(", ", techStack)
  }

  /** `xs.map(x => open + x + close).join('')`. */
  function Tagged(open: string, close: string, xs: seq<string>): string
  {
    if |xs| == 0 then "" else open + xs[0] + close + Tagged(open, close, xs[1..])
  }

  const ItemOpen: string := "<li>"
  const ItemClose: string := "</li>"
  const BadgeOpen: string := "<span class=\"tech-badge\">"
  const BadgeClose: string := "</span>"

  /** The two link lines of the text body. */
  function SiteLine(url: string): string
  {
    "- 生产环境: " + url + "\n"
  }

  function CodeLine(url: string): string
  {
    "- GitHub 仓库: " + url + "\n"
  }

  /** A link showing its own target, as in the HTML body's footer. */
  function Link(url: string): string
  {
    "<a href=\"" + url + "\">" + url + "</a>"
  }

  /** The pieces of the text template, in order. */
  function TextParts(d: DeploymentEmailData): seq<string>
  {
    [TextHead, d.projectName, TextBeforeLinks, SiteLine(d.deploymentUrl), CodeLine(d.githubUrl),
     TextBeforeFeatures, FeatureLines(d.features), TextBeforeTech, TechLine(d.techStack), TextTail]
  }

  /** The pieces of the HTML template, in order. */
  function HtmlParts(d: DeploymentEmailData): seq<string>
  {
    [HtmlHead, d.projectName, HtmlBeforeSiteButton, d.deploymentUrl, HtmlBeforeCodeButton, d.githubUrl,
     HtmlBeforeFeatures, Tagged(ItemOpen, ItemClose, d.features),
     HtmlBeforeTech, Tagged(BadgeOpen, BadgeClose, d.techStack),
     HtmlBeforeSiteLink, Link(d.deploymentUrl), HtmlBeforeCodeLink, Link(d.githubUrl), HtmlTail]
  }

  function TextBody(d: DeploymentEmailData): string
  {
    Concat(TextParts(d))
  }

  function HtmlBody(d: DeploymentEmailData): string
  {
    Concat(HtmlParts(d))
  }

  /** The message `sendDeploymentEmail` hands to the transport. */
  function DeploymentMail(d: DeploymentEmailData): (m: Mail)
    ensures m.to == d.recipientEmail
    ensures m.subject == Subject(d.projectName)
  {
    Mail(d.recipientEmail, Subject(d.projectName), TextBody(d), HtmlBody(d))
  }

  // ---------------------------------------------------------------------
  // Properties of the message.
  // ---------------------------------------------------------------------

  /** The subject names the project: different projects get different
      subjects, and the name sits right after the "🎉 " prefix. */
  lemma SubjectNamesProject(a: string, b: string)
    ensures Subject(a)[2..2 + |a|] == a
    ensures Subject(a) == Subject(b) ==> a == b
  {
    assert Subject(a)[2..2 + |a|] == a;
    if Subject(a) == Subject(b) {
      assert |a| == |b|;
      assert Subject(b)[2..2 + |b|] == b;
    }
  }

  /** Splitting the feature list at newlines gives one `- f` line per
      feature, in input order, when no feature contains a newline. */
  lemma FeatureLinesRoundTrip(features: seq<string>)
    requires |features| >= 1
    requires forall k :: 0 <= k < |features| ==> '\n' !in features[k]
    ensures Split(FeatureLines(features), '\n') == Bullets(features)
  {
    var lines := Bullets(features);
    forall k | 0 <= k < |lines| ensures '\n' !in lines[k] {
      assert lines[k] == "- " + features[k];
    }
    SplitJoin(lines, '\n');
  }

  /** The tech line keeps the input order: any entry is preceded by the join
      of the entries before it and followed by the join of those after it. */
  lemma TechLineInOrder(techStack: seq<string>, k: nat)
    requires 0 < k < |techStack|
    ensures TechLine(techStack) == TechLine(techStack[..k]) + ", " + TechLine(techStack[k..])
  {
    JoinAt(", ", techStack, k);
  }

  lemma {:induction false} TaggedAppend(open: string, close: string, xs: seq<string>, ys: seq<string>)
    ensures Tagged(open, close, xs + ys) == Tagged(open, close, xs) + Tagged(open, close, ys)
  {
    if |xs| == 0 {
      assert xs + ys == ys;
    } else {
      assert (xs + ys)[0] == xs[0];
      assert (xs + ys)[1..] == xs[1..] + ys;
      TaggedAppend(open, close, xs[1..], ys);
    }
  }

  /** The k-th element gets its own tag, between those of the elements
      before and after it: one tag per element, in order. */
  lemma TaggedAt(open: string, close: string, xs: seq<string>, k: nat)
    requires k < |xs|
    ensures Tagged(open, close, xs) ==
            Tagged(open, close, xs[..k]) + open + xs[k] + close + Tagged(open, close, xs[k + 1..])
  {
    assert xs == xs[..k] + xs[k..];
    TaggedAppend(open, close, xs[..k], xs[k..]);
    assert xs[k..][1..] == xs[k + 1..];
  }

  /** Reading tags back: a sequence of `open x close` groups, where no `x`
      contains the first character of `close`. */
  function Untag(open: string, close: string, s: string): (r: Option<seq<string>>)
    requires open != "" && close != ""
    decreases |s|
  {
    if s == "" then Some([])
    else if !(open <= s) then None
    else
      var j := ScanTo(s, close[0], |open|);
      if !(close <= s[j..]) then None
      else match Untag(open, close, s[j + |close|..])
        case None => None
        case Some(rest) => Some([s[|open|..j]] + rest)
  }

  /** The tags of the HTML body can be read back as exactly the input list:
      one `<li>` per feature and one badge per tech entry, in order. */
  lemma {:induction false} UntagTagged(open: string, close: string, xs: seq<string>)
    requires open != "" && close != ""
    requires forall k :: 0 <= k < |xs| ==> close[0] !in xs[k]
    ensures Untag(open, close, Tagged(open, close, xs)) == Some(xs)
  {
    if |xs| > 0 {
      var s := Tagged(open, close, xs);
      var rest := Tagged(open, close, xs[1..]);
      assert s == open + xs[0] + close + rest;
      var j := |open| + |xs[0]|;
      assert open <= s;
      assert s[|open|..j] == xs[0] by {
        assert s == open + (xs[0] + (close + rest));
      }
      assert forall i :: |open| <= i < j ==> s[i] == xs[0][i - |open|];
      assert s[j] == close[0];
      ScanToAt(s, close[0], |open|, j);
      assert s[j..] == close + rest;
      assert s[j + |close|..] == rest;
      UntagTagged(open, close, xs[1..]);
      assert [xs[0]] + xs[1..] == xs;
    }
  }

  /** Both URLs are in the text body, as the "生产环境" and "GitHub 仓库"
      lines, and the feature and tech lists are in it too. */
  lemma LinksInTextBody(d: DeploymentEmailData)
    ensures Contains(TextBody(d), SiteLine(d.deploymentUrl)) && Contains(TextBody(d), CodeLine(d.githubUrl))
    ensures Contains(TextBody(d), FeatureLines(d.features)) && Contains(TextBody(d), TechLine(d.techStack))
  {
    ConcatContainsPart(TextParts(d), 3);
    ConcatContainsPart(TextParts(d), 4);
    ConcatContainsPart(TextParts(d), 6);
    ConcatContainsPart(TextParts(d), 8);
  }

  /** Both URLs are in the HTML body, each also as a link showing its own
      target. */
  lemma LinksInHtmlBody(d: DeploymentEmailData)
    ensures Contains(HtmlBody(d), d.deploymentUrl) && Contains(HtmlBody(d), d.githubUrl)
    ensures Contains(HtmlBody(d), Link(d.deploymentUrl)) && Contains(HtmlBody(d), Link(d.githubUrl))
  {
    var parts := HtmlParts(d);
    ConcatContainsPart(parts, 3);
    ConcatContainsPart(parts, 5);
    ConcatContainsPart(parts, 11);
    ConcatContainsPart(parts, 13);
  }

  /** The feature items and the tech badges are in the HTML body. */
  lemma ListsInHtmlBody(d: DeploymentEmailData)
    ensures Contains(HtmlBody(d), Tagged(ItemOpen, ItemClose, d.features))
    ensures Contains(HtmlBody(d), Tagged(BadgeOpen, BadgeClose, d.techStack))
  {
    var parts := HtmlParts(d);
    ConcatContainsPart(parts, 7);
    ConcatContainsPart(parts, 9);
  }
}
