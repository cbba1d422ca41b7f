/**
 * SettingsModel: the settings dialog's form. It is filled from the program settings as text,
 * checked field by field, and turned back into settings. The stored password is never shown:
 * the form holds the cipher it was loaded with and shows a fixed placeholder text instead, and
 * only a password the user types is encrypted again.
 */
module SettingsForm {
  import opened Wrappers
  import opened Text
  import opened Errors
  import opened Settings
  import opened SettingsService

  /** The placeholder the form shows for a stored password. */
  const FakePassword := "FakePassword"

  /** What the form holds: the helper's cipher and typed value, and the five text fields. */
  datatype Form = Form(
    userName: string,
    password: string,          // UserPasswordHelper._value
    cipher: seq<byte>,         // UserPasswordHelper._cipher
    routerIpAddress: string,
    routerPort: string,
    pppoeInterface: string,
    ethernetInterface: string)

  /** The form of a fresh model: every text field null, modelled as "", and no cipher. */
  const EmptyForm := Form("", "", [], "", "", "", "")

  /** UserPasswordHelper.GetValue: a blank value as it is, anything else as the placeholder. */
  function ShownPassword(value: string): string
  {
    if IsNullOrWhiteSpace(value) then value else FakePassword
  }

  /** UserPasswordHelper.Initialization on the value: a non-empty cipher puts the placeholder in. */
  function Initialized(cipher: seq<byte>, value: string): string
  {
    if cipher != [] then FakePassword else value
  }

  /** UserPasswordHelper.GetCipher: the loaded cipher unless a real password was typed. */
  function CipherOf(cipher: seq<byte>, value: string, encrypt: string -> seq<byte>): seq<byte>
  {
    if IsNullOrWhiteSpace(value) || value == FakePassword then cipher else encrypt(value)
  }

  /** IPAddress.Parse: a text TryParse refuses throws a FormatException. */
  function ParseAddress(s: string, parse: string -> Option<IpAddress>): Result<IpAddress>
  {
    if parse(s).Some? then Success(parse(s).value)
    else Failure(Exception(Format, "An invalid IP address was specified.", None))
  }

  /** int.Parse: an integer text outside the 32-bit range overflows, anything else not an integer is a format error. */
  function ParseInt32(s: string): Result<int>
  {
    if TryParseInt32(s).Some? then Success(TryParseInt32(s).value)
    else if IntegerText(s) then Failure(Exception(Overflow, "Value was either too large or too small for an Int32.", None))
    else Failure(Exception(Format, "The input string '" + s + "' was not in a correct format.", None))
  }

  /** FromEntity on a present snapshot: the cipher loaded and every field set from the settings. */
  function Filled(form: Form, settings: ProgramSettings, format: IpAddress -> string): Form
  {
    Form(settings.userName,
         Initialized(settings.userPassword, form.password),
         settings.userPassword,
         format(settings.routerAddress.address),
         IntToString(settings.routerAddress.port),
         settings.networkInterfaces.pppoeInterface,
         settings.networkInterfaces.etherInterface)
  }

  /** ToEntity: the address parsed, then the port parsed, then the end point built, then the cipher taken. */
  function Entity(form: Form, parse: string -> Option<IpAddress>, encrypt: string -> seq<byte>): Result<ProgramSettings>
  {
    var address := ParseAddress(form.routerIpAddress, parse);
    var port := ParseInt32(form.routerPort);
    if address.Failure? then Failure(address.error)
    else if port.Failure? then Failure(port.error)
    else
      var endPoint := NewEndPoint(address.value, port.value);
      if endPoint.Failure? then Failure(endPoint.error)
      else Success(ProgramSettings(form.userName, CipherOf(form.cipher, form.password, encrypt), endPoint.value,
                                   NetworkInterfaces(form.pppoeInterface, form.ethernetInterface)))
  }

  /** CheckModel: every field filled, the address and the port parse. */
  predicate Checked(form: Form, parse: string -> Option<IpAddress>)
  {
    && !IsNullOrWhiteSpace(form.userName)
    && !IsNullOrWhiteSpace(ShownPassword(form.password))
    && !IsNullOrWhiteSpace(form.routerIpAddress)
    && parse(form.routerIpAddress).Some?
    && !IsNullOrWhiteSpace(form.routerPort)
    && TryParseInt32(form.routerPort).Some?
    && !IsNullOrWhiteSpace(form.pppoeInterface)
    && !IsNullOrWhiteSpace(form.ethernetInterface)
  }

  /** SettingsModel.UserPasswordHelper: the loaded cipher and the value the user typed. */
  class UserPasswordHelper {
    var cipher: seq<byte>                  // _cipher
    var value: string                      // _value
    const encrypt: string -> seq<byte>     // ICredentialService.EncryptPassword

    constructor(encrypt: string -> seq<byte>)
      ensures cipher == [] && value == "" && this.encrypt == encrypt
    {
      this.encrypt := encrypt;
      cipher := [];
      value := "";
    }

    method Initialization(cipher: seq<byte>)
      modifies this
      ensures this.cipher == cipher && value == Initialized(cipher, old(value))
    {
      this.cipher := cipher;
      if cipher != [] {
        value := FakePassword;
      }
    }

    method GetCipher() returns (r: seq<byte>)
      ensures r == CipherOf(cipher, value, encrypt)
    {
      if IsNullOrWhiteSpace(value) || value == FakePassword {
        r := cipher;
      } else {
        r := encrypt(value);
      }
    }

    method SetValue(value: string)
      modifies this
      ensures this.value == value && cipher == old(cipher)
    {
      this.value := value;
    }

    method GetValue() returns (r: string)
      ensures r == ShownPassword(value)
    {
      r := if IsNullOrWhiteSpace(value) then value else FakePassword;
    }
  }

  class SettingsModel {
    var userName: string
    var routerIpAddress: string
    var routerPort: string
    var pppoeInterface: string
    var ethernetInterface: string
    var isModelFilled: bool
    const helper: UserPasswordHelper
    const text: AddressText

    function Snapshot(): Form
      reads this, helper
    {
      Form(userName, helper.value, helper.cipher, routerIpAddress, routerPort, pppoeInterface, ethernetInterface)
    }

    constructor(encrypt: string -> seq<byte>, text: AddressText)
      ensures Snapshot() == EmptyForm && !isModelFilled && fresh(helper) && helper.encrypt == encrypt && this.text == text
    {
      helper := new UserPasswordHelper(encrypt);
      this.text := text;
      userName, routerIpAddress, routerPort, pppoeInterface, ethernetInterface := "", "", "", "", "";
      isModelFilled := false;
    }

    /** The UserPassword property's setter. */
    method SetUserPassword(value: string)
      modifies helper
      ensures Snapshot() == old(Snapshot()).(password := value)
    {
      helper.SetValue(value);
    }

    /** FromEntity: a null snapshot throws and marks the form unfilled; otherwise every field is set. */
    method FromEntity(settings: Option<ProgramSettings>) returns (o: Outcome)
      modifies this, helper
      ensures settings.None? ==> o == Fail(NullArgument("settings")) && !isModelFilled && Snapshot() == old(Snapshot())
      ensures settings.Some? ==> o == Pass && isModelFilled && Snapshot() == Filled(old(Snapshot()), settings.value, text.format)
    {
      if settings.None? {
        isModelFilled := false;
        return Fail(NullArgument("settings"));
      }
      var s := settings.value;
      helper.Initialization(s.userPassword);
      userName := s.userName;
      routerIpAddress := text.format(s.routerAddress.address);
      routerPort := IntToString(s.routerAddress.port);
      pppoeInterface := s.networkInterfaces.pppoeInterface;
      ethernetInterface := s.networkInterfaces.etherInterface;
      isModelFilled := true;
      o := Pass;
    }

    method ToEntity() returns (r: Result<ProgramSettings>)
      ensures r == Entity(Snapshot(), text.parse, helper.encrypt)
    {
      var address := ParseAddress(routerIpAddress, text.parse);
      if address.Failure? {
        return Failure(address.error);
      }
      var port := ParseInt32(routerPort);
      if port.Failure? {
        return Failure(port.error);
      }
      var endPoint := NewEndPoint(address.value, port.value);
      if endPoint.Failure? {
        return Failure(endPoint.error);
      }
      var userPassword := helper.GetCipher();
      r := Success(ProgramSettings(userName, userPassword, endPoint.value, NetworkInterfaces(pppoeInterface, ethernetInterface)));
    }

    method CheckModel() returns (r: bool)
      ensures r == Checked(Snapshot(), text.parse)
    {
      var shown := helper.GetValue();
      r := !(IsNullOrWhiteSpace(userName) ||
             IsNullOrWhiteSpace(shown) ||
             IsNullOrWhiteSpace(routerIpAddress) ||
             text.parse(routerIpAddress).None? ||
             IsNullOrWhiteSpace(routerPort) ||
             TryParseInt32(routerPort).None? ||
             IsNullOrWhiteSpace(pppoeInterface) ||
             IsNullOrWhiteSpace(ethernetInterface));
    }
  }

  // ---- what the form promises ----

  /**
   * The form never shows a typed or stored password: what it shows equals the value only for a
   * blank value or the placeholder itself, and it is blank exactly when the value is.
   */
  lemma ShownPasswordHidesValue(value: string)
    ensures ShownPassword(value) == value <==> IsNullOrWhiteSpace(value) || value == FakePassword
    ensures IsNullOrWhiteSpace(ShownPassword(value)) <==> IsNullOrWhiteSpace(value)
  {
    assert !IsWhiteSpace(FakePassword[0]);
  }

  /**
   * A loaded non-empty cipher is saved back unchanged; a loaded empty cipher leaves a password
   * typed earlier in place, and that password is what gets encrypted.
   */
  lemma LoadedCipherKept(cipher: seq<byte>, value: string, encrypt: string -> seq<byte>)
    ensures cipher != [] ==> CipherOf(cipher, Initialized(cipher, value), encrypt) == cipher
    ensures cipher == [] && !IsNullOrWhiteSpace(value) && value != FakePassword ==>
      CipherOf(cipher, Initialized(cipher, value), encrypt) == encrypt(value)
    ensures ShownPassword(Initialized(cipher, value)) == (if cipher != [] then FakePassword else ShownPassword(value))
  {
    assert !IsWhiteSpace(FakePassword[0]);
  }

  /** int.Parse accepts exactly what int.TryParse accepts, with the same value. */
  lemma ParseAgreesWithTryParse(s: string)
    ensures ParseInt32(s).Success? <==> TryParseInt32(s).Some?
    ensures ParseInt32(s).Success? ==> MinInt32 <= ParseInt32(s).value <= MaxInt32
    ensures ParseInt32(s).Failure? && IntegerText(s) ==> ParseInt32(s).error.kind == Overflow
    ensures !IntegerText(s) ==> ParseInt32(s).error.kind == Format
  {
  }

  /** Decimal digits are never white space. */
  lemma PrintedIntIsNotBlank(n: int)
    ensures !IsNullOrWhiteSpace(IntToString(n))
  {
    var s := IntToString(n);
    if n < 0 {
      assert s[0] == '-';
    } else {
      assert IsDigit(s[0]);
    }
  }

  /**
   * Filling the form from settings and converting it back gives the same settings, when the port
   * is a real port, the address prints as a text that parses back to it, and the stored cipher is
   * not replaced by a password typed before the form was filled.
   */
  lemma FilledFormRoundTrip(form: Form, settings: ProgramSettings, text: AddressText, encrypt: string -> seq<byte>)
    requires MinPort <= settings.routerAddress.port <= MaxPort
    requires text.parse(text.format(settings.routerAddress.address)) == Some(settings.routerAddress.address)
    requires settings.userPassword != [] || IsNullOrWhiteSpace(form.password) || form.password == FakePassword
    ensures Entity(Filled(form, settings, text.format), text.parse, encrypt) == Success(settings)
  {
    PrintedIntParses(settings.routerAddress.port);
    LoadedCipherKept(settings.userPassword, form.password, encrypt);
  }

  /**
   * A form filled from settings with a real port and an address that prints as a parsable, non-blank
   * text passes the check exactly when the user name, the password and both interface names are filled.
   */
  lemma FilledFormChecks(form: Form, settings: ProgramSettings, text: AddressText)
    requires MinPort <= settings.routerAddress.port <= MaxPort
    requires text.parse(text.format(settings.routerAddress.address)).Some?
    requires !IsNullOrWhiteSpace(text.format(settings.routerAddress.address))
    ensures Checked(Filled(form, settings, text.format), text.parse) <==>
      && !IsNullOrWhiteSpace(settings.userName)
      && (settings.userPassword != [] || !IsNullOrWhiteSpace(form.password))
      && !IsNullOrWhiteSpace(settings.networkInterfaces.pppoeInterface)
      && !IsNullOrWhiteSpace(settings.networkInterfaces.etherInterface)
  {
    PrintedIntParses(settings.routerAddress.port);
    PrintedIntIsNotBlank(settings.routerAddress.port);
    LoadedCipherKept(settings.userPassword, form.password, x => []);
    ShownPasswordHidesValue(form.password);
    assert !IsWhiteSpace(FakePassword[0]);
  }

  /**
   * A form that passes the check converts to settings with its own names and interfaces unless
   * its port lies outside 0..65535, which the check does not look at and which fails the end point.
   */
  lemma CheckedFormConverts(form: Form, parse: string -> Option<IpAddress>, encrypt: string -> seq<byte>)
    requires Checked(form, parse)
    ensures Entity(form, parse, encrypt).Success? <==> MinPort <= TryParseInt32(form.routerPort).value <= MaxPort
    ensures Entity(form, parse, encrypt).Failure? ==> Entity(form, parse, encrypt).error.kind == ArgumentOutOfRange
    ensures Entity(form, parse, encrypt).Success? ==>
      && Entity(form, parse, encrypt).value.userName == form.userName
      && Entity(form, parse, encrypt).value.routerAddress
           == EndPoint(parse(form.routerIpAddress).value, TryParseInt32(form.routerPort).value)
      && Entity(form, parse, encrypt).value.networkInterfaces == NetworkInterfaces(form.pppoeInterface, form.ethernetInterface)
  {
    ParsedEntity(form, parse, encrypt, parse(form.routerIpAddress).value, TryParseInt32(form.routerPort).value);
  }

  /** With the address and the port parsed, ToEntity only builds the end point. */
  lemma ParsedEntity(form: Form, parse: string -> Option<IpAddress>, encrypt: string -> seq<byte>, address: IpAddress, port: int)
    requires parse(form.routerIpAddress) == Some(address) && TryParseInt32(form.routerPort) == Some(port)
    ensures Entity(form, parse, encrypt).Success? <==> MinPort <= port <= MaxPort
    ensures Entity(form, parse, encrypt).Failure? ==> Entity(form, parse, encrypt).error.kind == ArgumentOutOfRange
    ensures Entity(form, parse, encrypt).Success? ==>
      && Entity(form, parse, encrypt).value.userName == form.userName
      && Entity(form, parse, encrypt).value.routerAddress == EndPoint(address, port)
      && Entity(form, parse, encrypt).value.networkInterfaces == NetworkInterfaces(form.pppoeInterface, form.ethernetInterface)
  {
    assert ParseAddress(form.routerIpAddress, parse) == Success(address);
    assert ParseInt32(form.routerPort) == Success(port);
  }
}
