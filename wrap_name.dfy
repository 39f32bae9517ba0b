/** The wrap-transaction builder: given a name and the caller's options, decide
    whether the name is a second-level `.eth` name (wrapped by transferring the
    registrar token to the name wrapper) or any other name (wrapped by calling
    the name wrapper's `wrap`), validate the options for that path and build the
    unsigned transaction. Everything the builder asks of the network, of ethers
    and of sibling utility files is a field of `Env`. */
module WrapName {
  import opened JsValues
  import opened JsStrings

  type Address = string

  /** A 0x-prefixed hex string, as the hashing and encoding helpers return. */
  type Hex = string

  datatype Option<T> = None | Some(value: T)

  /** The four ways the builder refuses, plus the label-length check's refusal. */
  datatype WrapError =
    | LabelTooLong(firstLabel: string)  // wrappedLabelLengthCheck throws
    | InvalidFuseType(typeName: string) // .eth path: fuseOptions of a refused typeof
    | FusesNotAllowed                   // fuses on a name that is not a .eth second-level name
    | ExpiryNotAllowed                  // expiry on a name that is not a .eth second-level name
    | ApprovalRequired                  // the name wrapper lacks approval from the signer

  datatype Result<T> = Ok(value: T) | Err(error: WrapError)

  /** The options object: `fuseOptions` and `expiry` are arbitrary JavaScript
      values (fuse option sets are objects with payload `F`, expiry objects have
      payload `X`); an absent `resolverAddress` is `None`. */
  datatype WrapOptions<F, X> = WrapOptions(
    wrappedOwner: Address,
    fuseOptions: JsValue<F>,
    expiry: JsValue<X>,
    resolverAddress: Option<Address>)

  /** The tuple ABI-encoded as the registrar transfer's data:
      (string label, address owner, uint32 fuses, uint64 expiry, address resolver). */
  datatype WrapData = WrapData(firstLabel: string, wrappedOwner: Address, fuses: string, expiry: int, resolver: Address)

  /** What the builder reads from its collaborators. Every answer is a value or
      a total function of the inputs the builder passes. */
  datatype Env<!F, !X> = Env(
    signerAddress: Address,                       // signer.getAddress()
    publicResolverAddress: Address,               // the public resolver contract's address
    nameWrapperAddress: Address,                  // the name wrapper contract's address
    baseRegistrarAddress: Address,                // the .eth base registrar contract's address
    isApprovedForAll: (Address, Address) -> bool, // registry.isApprovedForAll(owner, operator)
    makeExpiry: (string, JsValue<X>) -> int,      // makeExpiry(name, expiry)
    labelLengthOk: string -> bool,                // wrappedLabelLengthCheck(label) does not throw
    generateFuseInput: JsValue<F> -> string,      // generateFuseInput(fuseOptions)
    hexEncodeName: string -> Hex,                 // hexEncodeName(name)
    labelhash: string -> Hex,                     // solidityKeccak256(['string'], [label])
    encodeWrapData: WrapData -> Hex)              // defaultAbiCoder.encode of the five-tuple

  const SafeTransferFromSignature := "safeTransferFrom(address,address,uint256,bytes)"
  const WrapMethod := "wrap"

  /** The unsigned transaction: one constructor per path, holding the call's
      arguments in order and the contract the call goes to. */
  datatype WrapTx =
    | EthWrap(registrar: Address, from: Address, to: Address, tokenId: Hex, data: Hex)
    | OtherWrap(nameWrapper: Address, encodedName: Hex, wrappedOwner: Address, resolver: Address)
  {
    function Target(): Address
    {
      if EthWrap? then registrar else nameWrapper
    }

    function Method(): string
    {
      if EthWrap? then SafeTransferFromSignature else WrapMethod
    }
  }

  // ---------------------------------------------------------------------------
  // Classification
  // ---------------------------------------------------------------------------

  /** The labels of a name: its pieces between dots. */
  function Labels(name: string): (labels: seq<string>)
    ensures |labels| >= 1
  {
    Split(name, '.')
  }

  /** The name takes the .eth path: exactly two labels, the second one "eth". */
  predicate TakesEthPath(name: string)
    ensures TakesEthPath(name) ==> '.' !in Labels(name)[0] && name == Labels(name)[0] + ".eth"
  {
    var labels := Labels(name);
    JoinSplit(name, '.');
    assert |labels| == 2 ==> labels[1..] == [labels[1]];
    |labels| == 2 && labels[1] == "eth"
  }

  /** A reference description of the .eth path on the name's characters: it
      ends in ".eth" and has no other dot. */
  predicate IsEthSecondLevel(name: string)
  {
    |name| >= 4 && name[|name| - 4..] == ".eth" && '.' !in name[..|name| - 4]
  }

  /** The path taken by splitting agrees with the reference description. */
  lemma EthPathByShape(name: string)
    ensures TakesEthPath(name) <==> IsEthSecondLevel(name)
  {
    var labels := Labels(name);
    if TakesEthPath(name) {
      JoinSplit(name, '.');
      assert labels[1..] == ["eth"];
      assert name == labels[0] + "." + "eth";
      assert name[..|name| - 4] == labels[0];
    }
    if IsEthSecondLevel(name) {
      var first := name[..|name| - 4];
      var parts := [first, "eth"];
      assert parts[1..] == ["eth"];
      assert Join(parts, '.') == name;
      SplitJoin(parts, '.');
    }
  }

  /** For a two-label name, the first label is everything before ".eth". */
  lemma EthFirstLabel(name: string)
    requires IsEthSecondLevel(name)
    ensures TakesEthPath(name) && Labels(name)[0] == name[..|name| - 4]
  {
    EthPathByShape(name);
    var parts := [name[..|name| - 4], "eth"];
    assert parts[1..] == ["eth"];
    assert Join(parts, '.') == name;
    SplitJoin(parts, '.');
  }

  // ---------------------------------------------------------------------------
  // Option normalisation
  // ---------------------------------------------------------------------------

  /** A falsy `resolverAddress` (absent or empty) is replaced by the public
      resolver's address; any other is kept. */
  function ResolverToUse(given: Option<Address>, publicResolver: Address): (a: Address)
    ensures given.Some? && given.value != "" ==> a == given.value
    ensures given.None? || given.value == "" ==> a == publicResolver
    ensures a == "" <==> publicResolver == "" && (given.None? || given.value == "")
  {
    match given
    case Some(a) => if a != "" then a else publicResolver
    case None => publicResolver
  }

  /** The `switch (typeof fuseOptions)` of the .eth path: objects (null
      included) go through `generateFuseInput`, numbers are written in base 16,
      strings pass unchanged, undefined is "0", any other type is refused. */
  function DecodeFuses<F>(generateFuseInput: JsValue<F> -> string, fuseOptions: JsValue<F>): (r: Result<string>)
    ensures r.Err? <==> TypeOf(fuseOptions) !in {"object", "number", "string", "undefined"}
    ensures r.Err? ==> r.error == InvalidFuseType(TypeOf(fuseOptions))
    ensures TypeOf(fuseOptions) == "object" ==> r == Ok(generateFuseInput(fuseOptions))
    ensures TypeOf(fuseOptions) == "undefined" ==> r == Ok("0")
    ensures TypeOf(fuseOptions) == "string" ==> r == Ok(fuseOptions.str)
    ensures TypeOf(fuseOptions) == "number" ==> r == Ok(NumberToString16(fuseOptions.num))
    ensures TypeOf(fuseOptions) == "number" ==> r.Ok? && ParseHexNumber(r.value) == fuseOptions.num
  {
    match fuseOptions
    case Null => Ok(generateFuseInput(fuseOptions))
    case Object(_) => Ok(generateFuseInput(fuseOptions))
    case Number(n) =>
      NumberToString16RoundTrip(n);
      Ok(NumberToString16(n))
    case String(s) => Ok(s)
    case Undefined => Ok("0")
    case _ => Err(InvalidFuseType(TypeOf(fuseOptions)))
  }

  /** The accepted shapes agree with their string forms: an option set decodes
      like the string `generateFuseInput` makes of it, and a number decodes like
      its base-16 string; distinct numbers never decode alike. */
  lemma FuseShapesAgree<F>(generateFuseInput: JsValue<F> -> string, options: F, n: int, m: int)
    ensures DecodeFuses(generateFuseInput, Object(options))
         == DecodeFuses(generateFuseInput, String(generateFuseInput(Object(options))))
    ensures DecodeFuses(generateFuseInput, Number(n)) == DecodeFuses(generateFuseInput, String(NumberToString16(n)))
    ensures DecodeFuses(generateFuseInput, Number(n)) == DecodeFuses(generateFuseInput, Number(m)) ==> n == m
  {
    if DecodeFuses(generateFuseInput, Number(n)) == DecodeFuses(generateFuseInput, Number(m)) {
      NumberToString16Injective(n, m);
    }
  }

  // ---------------------------------------------------------------------------
  // The two paths
  // ---------------------------------------------------------------------------

  /** wrapETH: transfer the registrar token for the first label to the name
      wrapper, with the encoded owner, fuses, expiry and resolver as data. */
  function WrapEth<F, X>(env: Env<F, X>, labels: seq<string>, wrappedOwner: Address, expiry: int,
                         decodedFuses: string, resolverAddress: Address): (tx: WrapTx)
    requires |labels| >= 1
    ensures tx.EthWrap? && tx.Target() == env.baseRegistrarAddress && tx.Method() == SafeTransferFromSignature
    ensures tx.from == env.signerAddress && tx.to == env.nameWrapperAddress
    ensures tx.tokenId == env.labelhash(labels[0])
    ensures tx.data == env.encodeWrapData(WrapData(labels[0], wrappedOwner, decodedFuses, expiry, resolverAddress))
  {
    var labelhash := env.labelhash(labels[0]);
    var data := env.encodeWrapData(WrapData(labels[0], wrappedOwner, decodedFuses, expiry, resolverAddress));
    EthWrap(env.baseRegistrarAddress, env.signerAddress, env.nameWrapperAddress, labelhash, data)
  }

  /** wrapOther: refuse unless the registry says the name wrapper may transfer
      the signer's names, then call the name wrapper's `wrap`. */
  function WrapOther<F, X>(env: Env<F, X>, name: string, wrappedOwner: Address, resolverAddress: Address): (r: Result<WrapTx>)
    ensures r.Ok? <==> env.isApprovedForAll(env.signerAddress, env.nameWrapperAddress)
    ensures r.Err? ==> r.error == ApprovalRequired
    ensures r.Ok? ==> r.value.OtherWrap? && r.value.Target() == env.nameWrapperAddress && r.value.Method() == WrapMethod
    ensures r.Ok? ==> r.value == OtherWrap(env.nameWrapperAddress, env.hexEncodeName(name), wrappedOwner, resolverAddress)
  {
    var hasApproval := env.isApprovedForAll(env.signerAddress, env.nameWrapperAddress);
    if !hasApproval then Err(ApprovalRequired)
    else Ok(OtherWrap(env.nameWrapperAddress, env.hexEncodeName(name), wrappedOwner, resolverAddress))
  }

  // ---------------------------------------------------------------------------
  // The builder
  // ---------------------------------------------------------------------------

  /** The default export: default the resolver, split the name, check the first
      label's length, then take the .eth path or the generic path. */
  function BuildWrap<F, X>(env: Env<F, X>, name: string, opts: WrapOptions<F, X>): (r: Result<WrapTx>)
    ensures r.Ok? ==> env.labelLengthOk(Labels(name)[0])
    ensures r.Ok? ==> (r.value.EthWrap? <==> IsEthSecondLevel(name))
    ensures r.Ok? && r.value.EthWrap? ==>
      r.value.Target() == env.baseRegistrarAddress && r.value.Method() == SafeTransferFromSignature
    ensures r.Ok? && r.value.OtherWrap? ==>
      && r.value.Target() == env.nameWrapperAddress && r.value.Method() == WrapMethod
      && env.isApprovedForAll(env.signerAddress, env.nameWrapperAddress)
      && !Truthy(opts.fuseOptions) && !Truthy(opts.expiry)
  {
    EthPathByShape(name);
    var resolverAddress := ResolverToUse(opts.resolverAddress, env.publicResolverAddress);
    var labels := Labels(name);
    if !env.labelLengthOk(labels[0]) then Err(LabelTooLong(labels[0]))
    else if |labels| == 2 && labels[1] == "eth" then
      match DecodeFuses(env.generateFuseInput, opts.fuseOptions)
      case Err(e) => Err(e)
      case Ok(decodedFuses) =>
        var expiryToUse := env.makeExpiry(name, opts.expiry);
        Ok(WrapEth(env, labels, opts.wrappedOwner, expiryToUse, decodedFuses, resolverAddress))
    else if Truthy(opts.fuseOptions) then Err(FusesNotAllowed)
    else if Truthy(opts.expiry) then Err(ExpiryNotAllowed)
    else WrapOther(env, name, opts.wrappedOwner, resolverAddress)
  }

  // ---------------------------------------------------------------------------
  // Properties of the builder
  // ---------------------------------------------------------------------------

  /** The length check applies to the first label and precedes everything
      else: an over-long first label is refused on either path, whatever the
      fuse, expiry and approval situation. */
  lemma LabelCheckComesFirst<F, X>(env: Env<F, X>, name: string, opts: WrapOptions<F, X>)
    requires !env.labelLengthOk(Labels(name)[0])
    ensures BuildWrap(env, name, opts) == Err(LabelTooLong(Labels(name)[0]))
  {
  }

  /** The .eth path: a second-level .eth name with an accepted fuse shape
      becomes a registrar `safeTransferFrom` of the label's token to the name
      wrapper; an unaccepted fuse shape is refused with its type name. */
  lemma EthPathOutcome<F, X>(env: Env<F, X>, name: string, opts: WrapOptions<F, X>)
    requires IsEthSecondLevel(name)
    requires env.labelLengthOk(name[..|name| - 4])
    ensures var firstLabel := name[..|name| - 4];
      var resolver := ResolverToUse(opts.resolverAddress, env.publicResolverAddress);
      var fuses := DecodeFuses(env.generateFuseInput, opts.fuseOptions);
      BuildWrap(env, name, opts) ==
        if fuses.Err? then Err(InvalidFuseType(TypeOf(opts.fuseOptions)))
        else Ok(EthWrap(env.baseRegistrarAddress, env.signerAddress, env.nameWrapperAddress, env.labelhash(firstLabel),
                        env.encodeWrapData(WrapData(firstLabel, opts.wrappedOwner, fuses.value,
                                                    env.makeExpiry(name, opts.expiry), resolver))))
  {
    EthFirstLabel(name);
  }

  /** The generic path: a truthy fuse option is refused first, then a truthy
      expiry, then a missing approval; otherwise the name wrapper's `wrap` is
      called on the encoded full name. */
  lemma GenericPathOutcome<F, X>(env: Env<F, X>, name: string, opts: WrapOptions<F, X>)
    requires !IsEthSecondLevel(name)
    requires env.labelLengthOk(Labels(name)[0])
    ensures var resolver := ResolverToUse(opts.resolverAddress, env.publicResolverAddress);
      BuildWrap(env, name, opts) ==
        if Truthy(opts.fuseOptions) then Err(FusesNotAllowed)
        else if Truthy(opts.expiry) then Err(ExpiryNotAllowed)
        else if !env.isApprovedForAll(env.signerAddress, env.nameWrapperAddress) then Err(ApprovalRequired)
        else Ok(OtherWrap(env.nameWrapperAddress, env.hexEncodeName(name), opts.wrappedOwner, resolver))
  {
    EthPathByShape(name);
  }

  /** Each refusal happens exactly under its own conditions; together with
      `BuildWrap`'s contract this is the whole decision table. */
  lemma ErrorExits<F, X>(env: Env<F, X>, name: string, opts: WrapOptions<F, X>)
    ensures var r := BuildWrap(env, name, opts);
      var ok := env.labelLengthOk(Labels(name)[0]);
      var eth := IsEthSecondLevel(name);
      && (r.Err? && r.error.LabelTooLong? <==> !ok)
      && (r.Err? && r.error.InvalidFuseType? <==>
            ok && eth && TypeOf(opts.fuseOptions) !in {"object", "number", "string", "undefined"})
      && (r.Err? && r.error.FusesNotAllowed? <==> ok && !eth && Truthy(opts.fuseOptions))
      && (r.Err? && r.error.ExpiryNotAllowed? <==> ok && !eth && !Truthy(opts.fuseOptions) && Truthy(opts.expiry))
      && (r.Err? && r.error.ApprovalRequired? <==>
            ok && !eth && !Truthy(opts.fuseOptions) && !Truthy(opts.expiry)
            && !env.isApprovedForAll(env.signerAddress, env.nameWrapperAddress))
  {
    EthPathByShape(name);
  }

  /** Off the .eth path a truthy fuse option is refused, whatever the expiry
      and the registry say: the fuse check wins over the expiry check. */
  lemma FuseRefusalWins<F, X>(env: Env<F, X>, name: string, opts: WrapOptions<F, X>)
    requires !IsEthSecondLevel(name) && env.labelLengthOk(Labels(name)[0])
    requires Truthy(opts.fuseOptions)
    ensures BuildWrap(env, name, opts) == Err(FusesNotAllowed)
  {
    GenericPathOutcome(env, name, opts);
  }

  /** Falsy options are not "set": on the generic path, 0, "", false, null and
      undefined pass the fuse and expiry checks. */
  lemma FalsyOptionsPass<F, X>(env: Env<F, X>, name: string, opts: WrapOptions<F, X>)
    requires !IsEthSecondLevel(name) && env.labelLengthOk(Labels(name)[0])
    requires opts.fuseOptions in {Undefined, Null, Boolean(false), Number(0), BigInt(0), String("")}
    requires opts.expiry in {Undefined, Null, Boolean(false), Number(0), BigInt(0), String("")}
    ensures BuildWrap(env, name, opts).Ok? <==> env.isApprovedForAll(env.signerAddress, env.nameWrapperAddress)
  {
    GenericPathOutcome(env, name, opts);
  }

  /** The .eth path never asks for approval: changing the registry's answer
      changes nothing. */
  lemma EthPathIgnoresApproval<F, X>(env: Env<F, X>, name: string, opts: WrapOptions<F, X>,
                                     approval: (Address, Address) -> bool)
    requires IsEthSecondLevel(name)
    ensures BuildWrap(env, name, opts) == BuildWrap(env.(isApprovedForAll := approval), name, opts)
  {
    EthPathByShape(name);
  }

  /** A refused fuse or expiry option on the generic path is reported before
      the approval is read: the registry's answer does not matter. */
  lemma OptionsRefusedBeforeApproval<F, X>(env: Env<F, X>, name: string, opts: WrapOptions<F, X>,
                                           approval: (Address, Address) -> bool)
    requires !IsEthSecondLevel(name)
    requires Truthy(opts.fuseOptions) || Truthy(opts.expiry)
    ensures BuildWrap(env, name, opts).Err?
    ensures BuildWrap(env, name, opts) == BuildWrap(env.(isApprovedForAll := approval), name, opts)
  {
    EthPathByShape(name);
  }

  /** A falsy resolver address is replaced by the public resolver's; a truthy
      one reaches either path's transaction unchanged. */
  lemma ResolverInTransaction<F, X>(env: Env<F, X>, name: string, opts: WrapOptions<F, X>)
    requires BuildWrap(env, name, opts).Ok?
    ensures var tx := BuildWrap(env, name, opts).value;
      var expected := if opts.resolverAddress.Some? && opts.resolverAddress.value != "" then opts.resolverAddress.value
                      else env.publicResolverAddress;
      && (tx.OtherWrap? ==> tx.resolver == expected)
      && (tx.EthWrap? ==>
            && DecodeFuses(env.generateFuseInput, opts.fuseOptions).Ok?
            && tx.data == env.encodeWrapData(WrapData(Labels(name)[0], opts.wrappedOwner,
                 DecodeFuses(env.generateFuseInput, opts.fuseOptions).value, env.makeExpiry(name, opts.expiry), expected)))
  {
    EthPathByShape(name);
  }

  /** Two environments that give the same answers to the questions the builder
      asks about this name and these options. */
  ghost predicate SameAnswers<F, X>(e1: Env<F, X>, e2: Env<F, X>, name: string, opts: WrapOptions<F, X>)
  {
    var firstLabel := Labels(name)[0];
    && e1.signerAddress == e2.signerAddress
    && e1.publicResolverAddress == e2.publicResolverAddress
    && e1.nameWrapperAddress == e2.nameWrapperAddress
    && e1.baseRegistrarAddress == e2.baseRegistrarAddress
    && e1.isApprovedForAll(e1.signerAddress, e1.nameWrapperAddress)
       == e2.isApprovedForAll(e1.signerAddress, e1.nameWrapperAddress)
    && e1.makeExpiry(name, opts.expiry) == e2.makeExpiry(name, opts.expiry)
    && e1.labelLengthOk(firstLabel) == e2.labelLengthOk(firstLabel)
    && e1.generateFuseInput(opts.fuseOptions) == e2.generateFuseInput(opts.fuseOptions)
    && e1.hexEncodeName(name) == e2.hexEncodeName(name)
    && e1.labelhash(firstLabel) == e2.labelhash(firstLabel)
    && forall d: WrapData :: d.firstLabel == firstLabel ==> e1.encodeWrapData(d) == e2.encodeWrapData(d)
  }

  /** The builder keeps no state: identical inputs and identical collaborator
      answers give the identical outcome. */
  lemma Deterministic<F, X>(e1: Env<F, X>, e2: Env<F, X>, name: string, opts: WrapOptions<F, X>)
    requires SameAnswers(e1, e2, name, opts)
    ensures BuildWrap(e1, name, opts) == BuildWrap(e2, name, opts)
  {
    var labels := Labels(name);
    if e1.labelLengthOk(labels[0]) && TakesEthPath(name) {
      var fuses := DecodeFuses(e1.generateFuseInput, opts.fuseOptions);
      assert fuses == DecodeFuses(e2.generateFuseInput, opts.fuseOptions);
      if fuses.Ok? {
        var resolver := ResolverToUse(opts.resolverAddress, e1.publicResolverAddress);
        var d := WrapData(labels[0], opts.wrappedOwner, fuses.value, e1.makeExpiry(name, opts.expiry), resolver);
        assert e1.encodeWrapData(d) == e2.encodeWrapData(d);
      }
    }
  }

  // ---------------------------------------------------------------------------
  // Examples
  // ---------------------------------------------------------------------------

  /** "vitalik.eth" takes the .eth path, with first label "vitalik". */
  lemma VitalikEthIsEthPath()
    ensures TakesEthPath("vitalik.eth") && Labels("vitalik.eth")[0] == "vitalik"
  {
    assert IsEthSecondLevel("vitalik.eth");
    EthFirstLabel("vitalik.eth");
  }

  /** "sub.vitalik.eth" has three labels, so it takes the generic path. */
  lemma SubnameIsGeneric()
    ensures Labels("sub.vitalik.eth") == ["sub", "vitalik", "eth"] && !TakesEthPath("sub.vitalik.eth")
  {
    assert Join(["sub", "vitalik", "eth"], '.') == "sub.vitalik.eth";
    SplitJoin(["sub", "vitalik", "eth"], '.');
  }

  /** "mydao.xyz" has two labels, but the second is not "eth". */
  lemma MydaoIsGeneric()
    ensures Labels("mydao.xyz") == ["mydao", "xyz"] && !TakesEthPath("mydao.xyz")
  {
    assert Join(["mydao", "xyz"], '.') == "mydao.xyz";
    SplitJoin(["mydao", "xyz"], '.');
  }

  /** A bare "eth" is one label (generic path), while ".eth" splits into an
      empty first label and "eth" (the .eth path). */
  lemma BareEthExamples()
    ensures !TakesEthPath("eth")
    ensures TakesEthPath(".eth") && Labels(".eth")[0] == ""
  {
    EthPathByShape("eth");
    assert IsEthSecondLevel(".eth");
    EthFirstLabel(".eth");
  }

  /** Numeric fuses are written in base 16: 255 is "ff", 16 is "10", -1 is "-1". */
  lemma NumericFuseExamples<F>(generateFuseInput: JsValue<F> -> string)
    ensures DecodeFuses(generateFuseInput, Number(255)) == Ok("ff")
    ensures DecodeFuses(generateFuseInput, Number(16)) == Ok("10")
    ensures DecodeFuses(generateFuseInput, Number(-1)) == Ok("-1")
    ensures DecodeFuses(generateFuseInput, Boolean(true)) == Err(InvalidFuseType("boolean"))
    ensures DecodeFuses(generateFuseInput, Undefined) == Ok("0")
  {
    assert HexDigit(15) == 'f' && HexDigit(1) == '1' && HexDigit(0) == '0';
    assert NatToHex(15) == "f" && NatToHex(1) == "1";
    assert NatToHex(255) == NatToHex(15) + [HexDigit(15)];
    assert NatToHex(16) == NatToHex(1) + [HexDigit(0)];
    assert NumberToString16(255) == "ff" && NumberToString16(16) == "10";
    assert NumberToString16(-1) == "-" + NatToHex(1) == "-1";
  }

  /** "vitalik.eth" with no fuses and no expiry: a registrar transfer with fuses
      "0" and the expiry the resolver chose for an absent one. */
  lemma VitalikEthScenario<F, X>(env: Env<F, X>, owner: Address)
    requires env.labelLengthOk("vitalik")
    ensures BuildWrap(env, "vitalik.eth", WrapOptions(owner, Undefined, Undefined, None)) ==
      Ok(EthWrap(env.baseRegistrarAddress, env.signerAddress, env.nameWrapperAddress, env.labelhash("vitalik"),
                 env.encodeWrapData(WrapData("vitalik", owner, "0", env.makeExpiry("vitalik.eth", Undefined),
                                             env.publicResolverAddress))))
  {
    assert IsEthSecondLevel("vitalik.eth");
    assert "vitalik.eth"[..|"vitalik.eth"| - 4] == "vitalik";
    EthPathOutcome(env, "vitalik.eth", WrapOptions(owner, Undefined, Undefined, None));
  }

  /** "sub.vitalik.eth" with fuses set is refused, whatever the registry says. */
  lemma SubnameWithFusesScenario<F, X>(env: Env<F, X>, owner: Address, fuses: F)
    requires env.labelLengthOk("sub")
    ensures BuildWrap(env, "sub.vitalik.eth", WrapOptions(owner, Object(fuses), Undefined, None)) == Err(FusesNotAllowed)
  {
    var name := "sub.vitalik.eth";
    SubnameIsGeneric();
    assert !IsEthSecondLevel(name) by {
      assert name[..|name| - 4][3] == '.';
    }
    FuseRefusalWins(env, name, WrapOptions(owner, Object(fuses), Undefined, None));
  }

  /** "mydao.xyz" without approval is refused with the approval error. */
  lemma MydaoWithoutApprovalScenario<F, X>(env: Env<F, X>, owner: Address)
    requires env.labelLengthOk("mydao")
    requires !env.isApprovedForAll(env.signerAddress, env.nameWrapperAddress)
    ensures BuildWrap(env, "mydao.xyz", WrapOptions(owner, Undefined, Undefined, None)) == Err(ApprovalRequired)
  {
    MydaoIsGeneric();
    EthPathByShape("mydao.xyz");
    GenericPathOutcome(env, "mydao.xyz", WrapOptions(owner, Undefined, Undefined, None));
  }
}
