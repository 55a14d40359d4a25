/**
 * WebLogicRemoteConfiguration: the four connection properties of the
 * WebLogic 12.1.3 remote container, set one by one from arquillian.xml and
 * checked by validate(). A Java null String is `None`.
 */
module Config {
  import opened Wrappers

  const AdminUrlEmpty := "The adminUrl is empty. Verify the property in arquillian.xml"
  const UserNameEmpty :=
    "The username provided to weblogic.Deployer is empty. Verify the credentials in arquillian.xml"
  const PasswordEmpty :=
    "The password provided to weblogic.Deployer is empty. Verify the credentials in arquillian.xml"
  const TargetEmpty :=
    "The target for the deployment is empty. Verify the properties in arquillian.xml"

  /** A property that is neither null nor the empty string. */
  predicate Filled(value: Option<string>) {
    value.Some? && value.value != []
  }

  /** Validate.notNullOrEmpty: refuses null and "" with the given message. */
  function NotNullOrEmpty(value: Option<string>, message: string): Outcome<string> {
    if Filled(value) then Pass else Fail(message)
  }

  class WebLogicRemoteConfiguration {
    var adminUrl: Option<string>
    var adminUserName: Option<string>
    var adminPassword: Option<string>
    var target: Option<string>

    /** The implicit Java constructor: every property starts out null. */
    constructor ()
      ensures adminUrl == None && adminUserName == None
      ensures adminPassword == None && target == None
    {
      adminUrl, adminUserName, adminPassword, target := None, None, None, None;
    }

    /**
     * validate(): the four properties are checked in the order adminUrl,
     * adminUserName, adminPassword, target; the first one that is null or
     * empty decides the ConfigurationException message. Nothing is changed.
     */
    method Validate() returns (r: Outcome<string>)
      ensures r.Pass? <==>
                Filled(adminUrl) && Filled(adminUserName) && Filled(adminPassword) && Filled(target)
      ensures !Filled(adminUrl) ==> r == Fail(AdminUrlEmpty)
      ensures Filled(adminUrl) && !Filled(adminUserName) ==> r == Fail(UserNameEmpty)
      ensures Filled(adminUrl) && Filled(adminUserName) && !Filled(adminPassword) ==>
                r == Fail(PasswordEmpty)
      ensures Filled(adminUrl) && Filled(adminUserName) && Filled(adminPassword) && !Filled(target) ==>
                r == Fail(TargetEmpty)
    {
      r := NotNullOrEmpty(adminUrl, AdminUrlEmpty);
      if r.Fail? { return; }
      r := NotNullOrEmpty(adminUserName, UserNameEmpty);
      if r.Fail? { return; }
      r := NotNullOrEmpty(adminPassword, PasswordEmpty);
      if r.Fail? { return; }
      r := NotNullOrEmpty(target, TargetEmpty);
    }

    function GetAdminUrl(): Option<string> reads this { adminUrl }
    function GetAdminUserName(): Option<string> reads this { adminUserName }
    function GetAdminPassword(): Option<string> reads this { adminPassword }
    function GetTarget(): Option<string> reads this { target }

    method SetAdminUrl(adminUrl: Option<string>)
      modifies this
      ensures GetAdminUrl() == adminUrl
      ensures adminUserName == old(adminUserName) && adminPassword == old(adminPassword)
      ensures target == old(target)
    {
      this.adminUrl := adminUrl;
    }

    method SetAdminUserName(adminUserName: Option<string>)
      modifies this
      ensures GetAdminUserName() == adminUserName
      ensures adminUrl == old(adminUrl) && adminPassword == old(adminPassword)
      ensures target == old(target)
    {
      this.adminUserName := adminUserName;
    }

    method SetAdminPassword(adminPassword: Option<string>)
      modifies this
      ensures GetAdminPassword() == adminPassword
      ensures adminUrl == old(adminUrl) && adminUserName == old(adminUserName)
      ensures target == old(target)
    {
      this.adminPassword := adminPassword;
    }

    method SetTarget(target: Option<string>)
      modifies this
      ensures GetTarget() == target
      ensures adminUrl == old(adminUrl) && adminUserName == old(adminUserName)
      ensures adminPassword == old(adminPassword)
    {
      this.target := target;
    }
  }

  /** A configuration nobody has set anything on is refused at the adminUrl check. */
  method FreshConfigurationIsRejected() returns (r: Outcome<string>)
    ensures r == Fail(AdminUrlEmpty)
  {
    var configuration := new WebLogicRemoteConfiguration();
    r := configuration.Validate();
  }

  /** Once all four properties are set to non-empty strings, validate() passes. */
  method FullyConfiguredIsAccepted(url: string, user: string, password: string, target: string)
    returns (r: Outcome<string>)
    requires url != [] && user != [] && password != [] && target != []
    ensures r == Pass
  {
    var configuration := new WebLogicRemoteConfiguration();
    configuration.SetAdminUrl(Some(url));
    configuration.SetAdminUserName(Some(user));
    configuration.SetAdminPassword(Some(password));
    configuration.SetTarget(Some(target));
    r := configuration.Validate();
  }
}
