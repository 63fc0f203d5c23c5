/** The social connections hook: one flag per platform saying whether the
    user's account on it is connected. The flags start from the list of
    integrations and can only be switched on. */
module SocialConnections {

  /** A `SocialIntegration` record. */
  datatype Integration = Integration(id: string, userId: string, platform: string, connected: bool)

  /** `integrations.some(i => i.platform === platform && i.connected)`. */
  function AnyConnected(integrations: seq<Integration>, platform: string): (r: bool)
    ensures r <==> exists i :: 0 <= i < |integrations| && integrations[i].platform == platform && integrations[i].connected
  {
    if integrations == [] then false
    else
      (integrations[0].platform == platform && integrations[0].connected)
      || AnyConnected(integrations[1..], platform)
  }

  /** `mockSocialIntegrations`, the list the hook reads. */
  function MockIntegrations(): seq<Integration> {
    [ Integration("1", "1", "linkedin", true),
      Integration("2", "1", "twitter", false) ]
  }

  /** With the shipped list, LinkedIn starts connected and Twitter does not. */
  lemma ShippedFlags()
    ensures AnyConnected(MockIntegrations(), "linkedin")
    ensures !AnyConnected(MockIntegrations(), "twitter")
  {
    assert MockIntegrations()[0].platform == "linkedin";
    assert MockIntegrations()[0].platform != "twitter";
  }

  /** `useSocialConnections()`: the `socialConnections` record. */
  class Connections {
    var linkedin: bool
    var twitter: bool

    /** Each flag holds when some integration for its platform is
        connected; the hook is given `MockIntegrations()`. */
    constructor (integrations: seq<Integration>)
      ensures linkedin == AnyConnected(integrations, "linkedin")
      ensures twitter == AnyConnected(integrations, "twitter")
    {
      linkedin := AnyConnected(integrations, "linkedin");
      twitter := AnyConnected(integrations, "twitter");
    }

    /** `handleConnectLinkedin()`: LinkedIn on, Twitter as it was. Calling it
        again changes nothing. */
    method HandleConnectLinkedin()
      modifies this
      ensures linkedin && twitter == old(twitter)
      ensures IsAnyPlatformConnected()
    {
      linkedin := true;
    }

    /** `handleConnectTwitter()`: Twitter on, LinkedIn as it was. */
    method HandleConnectTwitter()
      modifies this
      ensures twitter && linkedin == old(linkedin)
      ensures IsAnyPlatformConnected()
    {
      twitter := true;
    }

    /** `isAnyPlatformConnected()`. */
    predicate IsAnyPlatformConnected()
      reads this
    {
      linkedin || twitter
    }
  }
}
