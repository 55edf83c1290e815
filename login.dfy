/** The login endpoint of the Pardot REST API, declared alike in login.go and
    pardotrest/login.go: it posts the credentials as a form and keeps the
    `api_key` of the reply. */
module LoginEndpoint {
  import opened Common
  import opened Text
  import opened Json

  const LoginPath: string := "login/" + Version

  /** The form of a login: the three fields in the order the format string
      names them, without escaping. */
  function LoginForm(email: string, pass: string, userKey: string): string {
    "email=" + email + "&password=" + pass + "&user_key=" + userKey
  }

  function LoginFields(email: string, pass: string, userKey: string): seq<(string, string)> {
    [("email", email), ("password", pass), ("user_key", userKey)]
  }

  /** The form is the three pairs written as a form body, so it reads back as
      exactly those pairs when no value contains '&'. */
  lemma LoginFormFields(email: string, pass: string, userKey: string)
    requires '&' !in email && '&' !in pass && '&' !in userKey
    ensures LoginForm(email, pass, userKey) == FormBody(LoginFields(email, pass, userKey))
    ensures FormPairs(LoginForm(email, pass, userKey)) == LoginFields(email, pass, userKey)
  {
    var pairs := LoginFields(email, pass, userKey);
    var pieces := seq(|pairs|, i requires 0 <= i < |pairs| => pairs[i].0 + "=" + pairs[i].1);
    assert pieces == ["email=" + email, "password=" + pass, "user_key=" + userKey] by {
      assert |pieces| == 3;
      assert pieces[0] == "email=" + email;
      assert pieces[1] == "password=" + pass;
      assert pieces[2] == "user_key=" + userKey;
    }
    assert pieces[1..][1..] == ["user_key=" + userKey];
    assert Join(pieces[1..][1..], "&") == pieces[2];
    assert Join(pieces[1..], "&") == pieces[1] + "&" + pieces[2];
    assert "&password=" == "&" + "password=";
    assert "&user_key=" == "&" + "user_key=";
    FormRoundTrip(pairs);
  }

  /** The key a login reply carries, with decoding errors discarded: "" when
      the bytes are not JSON or `api_key` is absent or not a string. */
  function ReplyKey(res: Payload): string {
    StringMember(res.doc, "api_key")
  }

  class Login {
    var userKey: string
    var email: string
    var pass: string
    var apiKey: string

    constructor (userKey: string, email: string, pass: string)
      ensures this.userKey == userKey && this.email == email && this.pass == pass && apiKey == ""
    {
      this.userKey := userKey;
      this.email := email;
      this.pass := pass;
      apiKey := "";
    }

    function Method(): string {
      "POST"
    }

    function Path(): string {
      LoginPath
    }

    function Body(): string
      reads this
    {
      LoginForm(email, pass, userKey)
    }

    /** `Read` keeps the key of the reply, changes no other field, and never
        fails. */
    method Read(res: Payload) returns (err: Option<Error>)
      modifies this`apiKey
      ensures apiKey == ReplyKey(res)
      ensures err == None
    {
      apiKey := StringMember(res.doc, "api_key");
      err := None;
    }
  }

  /** The reply `{"api_key": k}` gives `k`; bytes that are not JSON, a reply
      without the key, and a key that is not a string give "". */
  lemma ReplyKeyCases(text: string, k: string, ms: seq<Member>)
    requires forall i :: 0 <= i < |ms| ==> ms[i].name != "api_key"
    ensures ReplyKey(Payload(text, Some(Object([Member("api_key", Str(k))])))) == k
    ensures ReplyKey(Payload(text, None)) == ""
    ensures ReplyKey(Payload(text, Some(Object(ms)))) == ""
    ensures ReplyKey(Payload(text, Some(Object([Member("api_key", Number(1))])))) == ""
  {
    var one := [Member("api_key", Str(k))];
    assert IntoStruct([], Object(one)).0 == one by {
      assert [] + one == one;
    }
    OccursOnce(one, "api_key", 0);
    FoldOne("", Str(k), IntoString);
    assert IntoStruct([], Object(ms)).0 == ms by {
      assert [] + ms == ms;
    }
    FieldAbsent("", ms, "api_key", IntoString);
    var bad := [Member("api_key", Number(1))];
    assert IntoStruct([], Object(bad)).0 == bad by {
      assert [] + bad == bad;
    }
    OccursOnce(bad, "api_key", 0);
    FoldOne("", Number(1), IntoString);
  }
}
