/**
 * The Defender upgrader (WP_Defender\Upgrader): on each load it compares the
 * database version stored in the site options with the plugin's version and,
 * when they differ, flags the new-features notice, migrates the configs of
 * versions 2.2 and 2.3, and translates the security headers of the legacy
 * "security tweaks" settings (versions before 2.2.9) into the
 * Security_Headers settings.
 *
 * The site options are a map from option name to PHP value, with
 * get_site_option's default `false` for a missing name. What the upgrader
 * takes from elsewhere (the plugin's version constant, version_compare,
 * json_decode, the Security_Headers table and defaults, the config
 * component) is an `Environment` value.
 */
module Upgrading {
  import opened Wrappers
  import opened PhpStrings
  import opened PhpValues

  const DbVersionKey: string := "wd_db_version"
  const ShowNewFeatureKey: string := "wd_show_new_feature"
  const ShownActivatorKey: string := "wp_defender_shown_activator"
  /** The option the legacy security tweaks kept their settings in, as JSON. */
  const HardenerKey: string := "wd_hardener_settings"

  /** The version gates of run() and migrate_configs(). */
  const HeadersBefore: string := "2.2.9"
  const ConfigsFrom: string := "2.2"
  const ConfigsBefore: string := "2.4"

  /** get_site_option($key): the stored value, `false` when there is none. */
  function OptionOf(options: map<string, Value>, key: string): Value {
    if key in options then options[key] else Bool(false)
  }

  // ---------------------------------------------------------------------------
  // version_compare as an abstract total preorder

  /** version_compare($a, $b, '<'), given `le` as version_compare($a, $b, '<='). */
  predicate Less(le: (string, string) -> bool, a: string, b: string) {
    le(a, b) && !le(b, a)
  }

  /** version_compare($a, $b, '>=') */
  predicate AtLeast(le: (string, string) -> bool, a: string, b: string) {
    le(b, a)
  }

  /** What the proofs assume of version_compare: every two versions compare, and comparison chains. */
  ghost predicate TotalPreorder(le: (string, string) -> bool) {
    && (forall a, b :: le(a, b) || le(b, a))
    && (forall a, b, c :: le(a, b) && le(b, c) ==> le(a, c))
  }

  // ---------------------------------------------------------------------------
  // The Security_Headers settings

  /** The fields of the Security_Headers settings that the migration writes. */
  datatype HeaderFields = HeaderFields(
    shXframe: Value,
    shXframeMode: Value,
    shXframeUrls: Value,
    shXssProtection: Value,
    shXssProtectionMode: Value,
    shContentTypeOptions: Value,
    shContentTypeOptionsMode: Value,
    shStrictTransport: Value,
    hstsPreload: Value,
    includeSubdomain: Value,
    hstsCacheDuration: Value,
    shReferrerPolicy: Value,
    shReferrerPolicyMode: Value,
    shFeaturePolicy: Value,
    shFeaturePolicyMode: Value,
    shFeaturePolicyUrls: Value)

  /** What save() stores under the Security_Headers table: the fields by name. */
  function HeadersValue(h: HeaderFields): (v: Value)
    ensures Present(v)
  {
    Arr([
      (StrKey("sh_xframe"), h.shXframe),
      (StrKey("sh_xframe_mode"), h.shXframeMode),
      (StrKey("sh_xframe_urls"), h.shXframeUrls),
      (StrKey("sh_xss_protection"), h.shXssProtection),
      (StrKey("sh_xss_protection_mode"), h.shXssProtectionMode),
      (StrKey("sh_content_type_options"), h.shContentTypeOptions),
      (StrKey("sh_content_type_options_mode"), h.shContentTypeOptionsMode),
      (StrKey("sh_strict_transport"), h.shStrictTransport),
      (StrKey("hsts_preload"), h.hstsPreload),
      (StrKey("include_subdomain"), h.includeSubdomain),
      (StrKey("hsts_cache_duration"), h.hstsCacheDuration),
      (StrKey("sh_referrer_policy"), h.shReferrerPolicy),
      (StrKey("sh_referrer_policy_mode"), h.shReferrerPolicyMode),
      (StrKey("sh_feature_policy"), h.shFeaturePolicy),
      (StrKey("sh_feature_policy_mode"), h.shFeaturePolicyMode),
      (StrKey("sh_feature_policy_urls"), h.shFeaturePolicyUrls)])
  }

  // Which fields each legacy header may change.

  predicate OnlyXFrameChanged(h: HeaderFields, r: HeaderFields) {
    r == h.(shXframe := r.shXframe, shXframeMode := r.shXframeMode, shXframeUrls := r.shXframeUrls)
  }

  predicate OnlyXssChanged(h: HeaderFields, r: HeaderFields) {
    r == h.(shXssProtection := r.shXssProtection, shXssProtectionMode := r.shXssProtectionMode)
  }

  predicate OnlyContentTypeChanged(h: HeaderFields, r: HeaderFields) {
    r == h.(shContentTypeOptions := r.shContentTypeOptions, shContentTypeOptionsMode := r.shContentTypeOptionsMode)
  }

  predicate OnlyStrictTransportChanged(h: HeaderFields, r: HeaderFields) {
    r == h.(shStrictTransport := r.shStrictTransport, hstsPreload := r.hstsPreload,
             includeSubdomain := r.includeSubdomain, hstsCacheDuration := r.hstsCacheDuration)
  }

  predicate OnlyReferrerChanged(h: HeaderFields, r: HeaderFields) {
    r == h.(shReferrerPolicy := r.shReferrerPolicy, shReferrerPolicyMode := r.shReferrerPolicyMode)
  }

  predicate OnlyFeaturePolicyChanged(h: HeaderFields, r: HeaderFields) {
    r == h.(shFeaturePolicy := r.shFeaturePolicy, shFeaturePolicyMode := r.shFeaturePolicyMode,
             shFeaturePolicyUrls := r.shFeaturePolicyUrls)
  }

  /** A value with no upper-case ASCII letter. */
  predicate IsLowerCase(s: string) {
    forall i :: 0 <= i < |s| ==> !IsUpper(s[i])
  }

  /**
   * The `$mode` of a legacy header: its lowercased mode when the mode is set
   * and not empty, `None` (PHP's false) otherwise; strtolower of an array is a TypeError.
   */
  function LoweredMode(headerData: Value): (r: Result<Option<string>, string>)
    ensures r.Failure? <==> Present(Get(headerData, "mode")) && Get(headerData, "mode").Arr?
    ensures r.Failure? ==> r.error == ArrayGivenError
    ensures r.Success? ==> (r.value.Some? <==> Present(Get(headerData, "mode")))
    ensures r.Success? && r.value.Some? ==> IsLowerCase(r.value.value)
    ensures r.Success? && r.value.Some? ==> r.value.value == Lower(ToStr(Get(headerData, "mode")).value)
  {
    var m := Get(headerData, "mode");
    if !Present(m) then Success(None)
    else
      var s := ToStr(m);
      if s.Failure? then Failure(s.error) else Success(Some(Lower(s.value)))
  }

  // ---------------------------------------------------------------------------
  // One function per legacy header: what its block of migrate_security_headers does to the settings.

  /**
   * X-Frame-Options. The mode is lowercased; allow-from also takes the URL
   * list with its spaces turned into newlines; sameorigin and deny are
   * copied; any other mode leaves the mode alone. The header is switched on
   * whenever the legacy entry is not empty.
   */
  function XFrame(h: HeaderFields, data: Value): (r: Result<HeaderFields, string>)
    ensures !Present(Get(data, "sh_xframe")) ==> r == Success(h)
    ensures r.Failure? ==> r.error == ArrayGivenError
    ensures r.Success? ==> OnlyXFrameChanged(h, r.value)
  {
    var hd := Get(data, "sh_xframe");
    if !Present(hd) then Success(h)
    else
      var mode := LoweredMode(hd);
      if mode.Failure? then Failure(mode.error)
      else if mode.value == Some("allow-from") then
        var values := Get(hd, "values");
        if Present(values) then
          var s := ToStr(values);
          if s.Failure? then Failure(s.error)
          else
            Success(h.(shXframeMode := Str("allow-from"), shXframeUrls := Str(Implode("\n", Explode(' ', s.value))),
                       shXframe := Bool(true)))
        else Success(h.(shXframeMode := Str("allow-from"), shXframe := Bool(true)))
      else if mode.value == Some("sameorigin") || mode.value == Some("deny") then
        Success(h.(shXframeMode := Str(mode.value.value), shXframe := Bool(true)))
      else Success(h.(shXframe := Bool(true)))
  }

  /**
   * What the X-Frame-Options block does with each mode: allow-from takes the
   * URL list with its spaces turned into newlines, sameorigin and deny are
   * copied, and any other mode leaves the mode alone; the header is switched
   * on in every case without a TypeError.
   */
  lemma XFrameModes(h: HeaderFields, data: Value)
    ensures var r := XFrame(h, data);
      Present(Get(data, "sh_xframe")) ==>
      var hd := Get(data, "sh_xframe");
      var mode := LoweredMode(hd);
      var values := Get(hd, "values");
      && (mode.Failure? ==> r.Failure?)
      && (mode == Success(Some("allow-from")) ==>
            && (r.Failure? <==> Present(values) && values.Arr?)
            && (r.Success? ==> r.value.shXframe == Bool(true) && r.value.shXframeMode == Str("allow-from"))
            && (r.Success? && Present(values) ==> r.value.shXframeUrls == Str(ReplaceChar(ToStr(values).value, ' ', '\n')))
            && (r.Success? && !Present(values) ==> r.value.shXframeUrls == h.shXframeUrls))
      && (mode == Success(Some("sameorigin")) || mode == Success(Some("deny")) ==>
            r == Success(h.(shXframe := Bool(true), shXframeMode := Str(mode.value.value))))
      && (mode.Success? && mode.value !in {Some("allow-from"), Some("sameorigin"), Some("deny")} ==>
            r == Success(h.(shXframe := Bool(true))))
  {
    var hd := Get(data, "sh_xframe");
    if Present(hd) && LoweredMode(hd) == Success(Some("allow-from")) && Present(Get(hd, "values")) && !Get(hd, "values").Arr? {
      ImplodeExplodeReplaces(ToStr(Get(hd, "values")).value, ' ', '\n');
    }
  }

  /** X-XSS-Protection: switched on, with its mode copied, only for a mode that is exactly "sanitize" or "block". */
  function Xss(h: HeaderFields, data: Value): (r: HeaderFields)
    ensures OnlyXssChanged(h, r)
    ensures r != h ==> r.shXssProtection == Bool(true)
    ensures r.shXssProtectionMode != h.shXssProtectionMode ==>
              r.shXssProtectionMode == Str("sanitize") || r.shXssProtectionMode == Str("block")
    ensures (r.shXssProtection == Bool(true) && r.shXssProtectionMode == Get(Get(data, "sh_xss_protection"), "mode"))
            <==> (r != h || (h.shXssProtection == Bool(true) && h.shXssProtectionMode == Get(Get(data, "sh_xss_protection"), "mode")))
    ensures var m := Get(Get(data, "sh_xss_protection"), "mode");
            m in {Str("sanitize"), Str("block")} ==> r == h.(shXssProtection := Bool(true), shXssProtectionMode := m)
    ensures var m := Get(Get(data, "sh_xss_protection"), "mode");
            m !in {Str("sanitize"), Str("block")} ==> r == h
  {
    var hd := Get(data, "sh_xss_protection");
    if Present(hd) then
      var m := Get(hd, "mode");
      if Present(m) && (m == Str("sanitize") || m == Str("block")) then
        h.(shXssProtectionMode := m, shXssProtection := Bool(true))
      else h
    else h
  }

  /** X-Content-Type-Options: any non-empty mode is copied as it is and switches the header on. */
  function ContentType(h: HeaderFields, data: Value): (r: HeaderFields)
    ensures OnlyContentTypeChanged(h, r)
    ensures var m := Get(Get(data, "sh_content_type_options"), "mode");
            Present(m) ==> r.shContentTypeOptions == Bool(true) && r.shContentTypeOptionsMode == m
    ensures !Present(Get(Get(data, "sh_content_type_options"), "mode")) ==> r == h
  {
    var hd := Get(data, "sh_content_type_options");
    if Present(hd) then
      var m := Get(hd, "mode");
      if Present(m) then h.(shContentTypeOptionsMode := m, shContentTypeOptions := Bool(true)) else h
    else h
  }

  /** in_array($v, array('true', '1', 1), true) */
  predicate IsTrueFlag(v: Value) {
    v == Str("true") || v == Str("1") || v == Int(1)
  }

  /**
   * Strict-Transport-Security: preload is cast to an integer, include_subdomain
   * becomes 1 exactly for 'true', '1' or 1 and 0 for anything else, the cache
   * duration is copied; the header is switched on whenever the entry is not empty.
   */
  function StrictTransport(h: HeaderFields, data: Value): (r: HeaderFields)
    ensures OnlyStrictTransportChanged(h, r)
    ensures !Present(Get(data, "sh_strict_transport")) ==> r == h
    ensures var hd := Get(data, "sh_strict_transport");
      Present(hd) ==>
        && r.shStrictTransport == Bool(true)
        && (Present(Get(hd, "hsts_preload")) ==> r.hstsPreload == Int(IntCast(Get(hd, "hsts_preload"))))
        && (!Present(Get(hd, "hsts_preload")) ==> r.hstsPreload == h.hstsPreload)
        && (Present(Get(hd, "include_subdomain")) ==>
              (r.includeSubdomain == Int(1) <==> IsTrueFlag(Get(hd, "include_subdomain")))
              && (r.includeSubdomain == Int(0) <==> !IsTrueFlag(Get(hd, "include_subdomain"))))
        && (!Present(Get(hd, "include_subdomain")) ==> r.includeSubdomain == h.includeSubdomain)
        && (Present(Get(hd, "hsts_cache_duration")) ==> r.hstsCacheDuration == Get(hd, "hsts_cache_duration"))
        && (!Present(Get(hd, "hsts_cache_duration")) ==> r.hstsCacheDuration == h.hstsCacheDuration)
  {
    var hd := Get(data, "sh_strict_transport");
    if !Present(hd) then h
    else
      var preload := Get(hd, "hsts_preload");
      var h1 := if Present(preload) then h.(hstsPreload := Int(IntCast(preload))) else h;
      var sub := Get(hd, "include_subdomain");
      var h2 := if Present(sub) then h1.(includeSubdomain := Int(if IsTrueFlag(sub) then 1 else 0)) else h1;
      var duration := Get(hd, "hsts_cache_duration");
      var h3 := if Present(duration) then h2.(hstsCacheDuration := duration) else h2;
      h3.(shStrictTransport := Bool(true))
  }

  /** Referrer-Policy: any non-empty mode is copied as it is and switches the header on. */
  function Referrer(h: HeaderFields, data: Value): (r: HeaderFields)
    ensures OnlyReferrerChanged(h, r)
    ensures var m := Get(Get(data, "sh_referrer_policy"), "mode");
            Present(m) ==> r.shReferrerPolicy == Bool(true) && r.shReferrerPolicyMode == m
    ensures !Present(Get(Get(data, "sh_referrer_policy"), "mode")) ==> r == h
  {
    var hd := Get(data, "sh_referrer_policy");
    if Present(hd) then
      var m := Get(hd, "mode");
      if Present(m) then h.(shReferrerPolicyMode := m, shReferrerPolicy := Bool(true)) else h
    else h
  }

  /** The URL list the Feature-Policy block keeps for mode origins: an array joined by newlines, a string with its spaces turned into newlines. */
  function OriginUrls(values: Value): (r: Option<string>)
    ensures values.Arr? ==> r == Some(Implode("\n", ElemStrings(values.entries)))
    ensures values.Str? ==> r == Some(ReplaceChar(values.s, ' ', '\n'))
    ensures !values.Arr? && !values.Str? ==> r.None?
  {
    if values.Arr? then Some(Implode("\n", ElemStrings(values.entries)))
    else if values.Str? then
      ImplodeExplodeReplaces(values.s, ' ', '\n');
      Some(Implode("\n", Explode(' ', values.s)))
    else None
  }

  /**
   * Feature-Policy: a non-empty mode is lowercased and stored and switches the
   * header on; only mode origins takes the URL list.
   */
  function FeaturePolicy(h: HeaderFields, data: Value): (r: Result<HeaderFields, string>)
    ensures r.Failure? ==> r.error == ArrayGivenError
    ensures r.Success? ==> OnlyFeaturePolicyChanged(h, r.value)
    ensures var hd := Get(data, "sh_feature_policy");
      && (!Present(Get(hd, "mode")) ==> r == Success(h))
      && (r.Failure? <==> LoweredMode(hd).Failure?)
    ensures var hd := Get(data, "sh_feature_policy");
      var values := Get(hd, "values");
      Present(Get(hd, "mode")) && ToStr(Get(hd, "mode")).Success? ==>
        var m := Lower(ToStr(Get(hd, "mode")).value);
        && r.Success?
        && r.value.shFeaturePolicy == Bool(true)
        && r.value.shFeaturePolicyMode == Str(m)
        && (m == "origins" && Present(values) && OriginUrls(values).Some? ==>
              r.value.shFeaturePolicyUrls == Str(OriginUrls(values).value))
        && (!(m == "origins" && Present(values) && OriginUrls(values).Some?) ==>
              r.value.shFeaturePolicyUrls == h.shFeaturePolicyUrls)
  {
    var hd := Get(data, "sh_feature_policy");
    if !Present(hd) then Success(h)
    else
      var mode := LoweredMode(hd);
      if mode.Failure? then Failure(mode.error)
      else if mode.value.None? then Success(h)
      else
        var h1 := h.(shFeaturePolicyMode := Str(mode.value.value));
        var values := Get(hd, "values");
        var urls := OriginUrls(values);
        var h2 := if mode.value.value == "origins" && Present(values) && urls.Some? then h1.(shFeaturePolicyUrls := Str(urls.value)) else h1;
        Success(h2.(shFeaturePolicy := Bool(true)))
  }

  /** The headers in the order migrate_security_headers handles them; the first TypeError stops the migration. */
  function MigrateHeaderFields(h: HeaderFields, data: Value): (r: Result<HeaderFields, string>)
    ensures r.Failure? <==> XFrame(h, data).Failure? || FeaturePolicy(h, data).Failure?
  {
    var x := XFrame(h, data);
    if x.Failure? then Failure(x.error)
    else
      var h1 := StrictTransport(ContentType(Xss(x.value, data), data), data);
      var h2 := Referrer(h1, data);
      var f := FeaturePolicy(h2, data);
      FeaturePolicyFailsAlike(h, h2, data);
      f
  }

  lemma FeaturePolicyFailsAlike(h: HeaderFields, h': HeaderFields, data: Value)
    ensures FeaturePolicy(h, data).Failure? == FeaturePolicy(h', data).Failure?
  {
  }

  /**
   * Each legacy header decides its own fields alone: the migrated settings
   * hold, for every header, exactly the fields that header's block gives on
   * the defaults.
   */
  lemma MigrationIsPerHeader(h: HeaderFields, data: Value)
    requires MigrateHeaderFields(h, data).Success?
    ensures var r := MigrateHeaderFields(h, data).value;
      && r.shXframe == XFrame(h, data).value.shXframe
      && r.shXframeMode == XFrame(h, data).value.shXframeMode
      && r.shXframeUrls == XFrame(h, data).value.shXframeUrls
      && r.shXssProtection == Xss(h, data).shXssProtection
      && r.shXssProtectionMode == Xss(h, data).shXssProtectionMode
      && r.shContentTypeOptions == ContentType(h, data).shContentTypeOptions
      && r.shContentTypeOptionsMode == ContentType(h, data).shContentTypeOptionsMode
      && r.shStrictTransport == StrictTransport(h, data).shStrictTransport
      && r.hstsPreload == StrictTransport(h, data).hstsPreload
      && r.includeSubdomain == StrictTransport(h, data).includeSubdomain
      && r.hstsCacheDuration == StrictTransport(h, data).hstsCacheDuration
      && r.shReferrerPolicy == Referrer(h, data).shReferrerPolicy
      && r.shReferrerPolicyMode == Referrer(h, data).shReferrerPolicyMode
      && r.shFeaturePolicy == FeaturePolicy(h, data).value.shFeaturePolicy
      && r.shFeaturePolicyMode == FeaturePolicy(h, data).value.shFeaturePolicyMode
      && r.shFeaturePolicyUrls == FeaturePolicy(h, data).value.shFeaturePolicyUrls
  {
    var x := XFrame(h, data).value;
    var h0 := Xss(x, data);
    XssOwnFields(h, x, data);
    var h1 := ContentType(h0, data);
    ContentTypeOwnFields(h, h0, data);
    var h2 := StrictTransport(h1, data);
    StrictTransportOwnFields(h, h1, data);
    var h3 := Referrer(h2, data);
    ReferrerOwnFields(h, h2, data);
    FeaturePolicyFailsAlike(h, h3, data);
    FeaturePolicyOwnFields(h, h3, data);
  }

  // What a header's block leaves in its own fields depends only on those fields and the legacy data.

  lemma XssOwnFields(h: HeaderFields, h': HeaderFields, data: Value)
    requires h.shXssProtection == h'.shXssProtection && h.shXssProtectionMode == h'.shXssProtectionMode
    ensures Xss(h, data).shXssProtection == Xss(h', data).shXssProtection
    ensures Xss(h, data).shXssProtectionMode == Xss(h', data).shXssProtectionMode
  {
  }

  lemma ContentTypeOwnFields(h: HeaderFields, h': HeaderFields, data: Value)
    requires h.shContentTypeOptions == h'.shContentTypeOptions
    requires h.shContentTypeOptionsMode == h'.shContentTypeOptionsMode
    ensures ContentType(h, data).shContentTypeOptions == ContentType(h', data).shContentTypeOptions
    ensures ContentType(h, data).shContentTypeOptionsMode == ContentType(h', data).shContentTypeOptionsMode
  {
  }

  lemma StrictTransportOwnFields(h: HeaderFields, h': HeaderFields, data: Value)
    requires h.shStrictTransport == h'.shStrictTransport && h.hstsPreload == h'.hstsPreload
    requires h.includeSubdomain == h'.includeSubdomain && h.hstsCacheDuration == h'.hstsCacheDuration
    ensures StrictTransport(h, data).shStrictTransport == StrictTransport(h', data).shStrictTransport
    ensures StrictTransport(h, data).hstsPreload == StrictTransport(h', data).hstsPreload
    ensures StrictTransport(h, data).includeSubdomain == StrictTransport(h', data).includeSubdomain
    ensures StrictTransport(h, data).hstsCacheDuration == StrictTransport(h', data).hstsCacheDuration
  {
  }

  lemma ReferrerOwnFields(h: HeaderFields, h': HeaderFields, data: Value)
    requires h.shReferrerPolicy == h'.shReferrerPolicy && h.shReferrerPolicyMode == h'.shReferrerPolicyMode
    ensures Referrer(h, data).shReferrerPolicy == Referrer(h', data).shReferrerPolicy
    ensures Referrer(h, data).shReferrerPolicyMode == Referrer(h', data).shReferrerPolicyMode
  {
  }

  lemma FeaturePolicyOwnFields(h: HeaderFields, h': HeaderFields, data: Value)
    requires h.shFeaturePolicy == h'.shFeaturePolicy && h.shFeaturePolicyMode == h'.shFeaturePolicyMode
    requires h.shFeaturePolicyUrls == h'.shFeaturePolicyUrls
    requires FeaturePolicy(h, data).Success?
    ensures FeaturePolicy(h', data).Success?
    ensures FeaturePolicy(h, data).value.shFeaturePolicy == FeaturePolicy(h', data).value.shFeaturePolicy
    ensures FeaturePolicy(h, data).value.shFeaturePolicyMode == FeaturePolicy(h', data).value.shFeaturePolicyMode
    ensures FeaturePolicy(h, data).value.shFeaturePolicyUrls == FeaturePolicy(h', data).value.shFeaturePolicyUrls
  {
  }

  /**
   * migrate_security_headers as a whole: the options it leaves, or the
   * TypeError that stops it before anything is saved.
   */
  function MigrateSecurityHeadersSpec(headersTable: string, defaults: HeaderFields, jsonDecode: Value -> Value,
                                      options: map<string, Value>): (r: Result<map<string, Value>, string>)
    ensures r.Failure? ==> r.error == ArrayGivenError
    ensures Present(OptionOf(options, headersTable)) ==> r == Success(options)
    ensures OptionOf(options, HardenerKey).Arr? ==> r == Success(options)
    ensures r.Success? && r.value != options ==>
      && headersTable in r.value
      && r.value == options[headersTable := r.value[headersTable]]
      && Present(OptionOf(r.value, headersTable))
    ensures !Present(OptionOf(options, headersTable)) && !OptionOf(options, HardenerKey).Arr? ==>
      var decoded := jsonDecode(OptionOf(options, HardenerKey));
      var data := Get(decoded, "data");
      && (!decoded.Arr? || !Present(data) ==> r == Success(options))
      && (decoded.Arr? && Present(data) ==>
            && (r.Failure? <==> MigrateHeaderFields(defaults, data).Failure?)
            && (r.Success? ==> r.value == options[headersTable := HeadersValue(MigrateHeaderFields(defaults, data).value)]))
  {
    if Present(OptionOf(options, headersTable)) then Success(options)
    else
      var oldSettings := OptionOf(options, HardenerKey);
      if oldSettings.Arr? then Success(options)
      else
        var decoded := jsonDecode(oldSettings);
        var data := Get(decoded, "data");
        if !decoded.Arr? || !Present(data) then Success(options)
        else
          var m := MigrateHeaderFields(defaults, data);
          if m.Failure? then Failure(m.error)
          else Success(options[headersTable := HeadersValue(m.value)])
  }

  /** The migration runs at most once: once it has saved the settings, running it again changes nothing. */
  lemma MigrateSecurityHeadersOnce(headersTable: string, defaults: HeaderFields, jsonDecode: Value -> Value,
                                   options: map<string, Value>)
    requires MigrateSecurityHeadersSpec(headersTable, defaults, jsonDecode, options).Success?
    ensures var after := MigrateSecurityHeadersSpec(headersTable, defaults, jsonDecode, options).value;
            MigrateSecurityHeadersSpec(headersTable, defaults, jsonDecode, after) == Success(after)
  {
    var after := MigrateSecurityHeadersSpec(headersTable, defaults, jsonDecode, options).value;
    if after != options {
      assert Present(OptionOf(after, headersTable));
    }
  }

  // ---------------------------------------------------------------------------
  // maybe_show_new_features and migrate_configs

  /** The stored options after maybe_show_new_features($current_version); `None` is a `false` argument. */
  function ShowNewFeaturesSpec(le: (string, string) -> bool, pluginVersion: string, options: map<string, Value>,
                               current: Option<string>): (r: map<string, Value>)
    ensures current.None? ==> r == options
    ensures r == options || r == options[ShowNewFeatureKey := Bool(true)]
    ensures current.Some? ==> (OptionOf(r, ShowNewFeatureKey) == Bool(true) <==>
              Less(le, current.value, pluginVersion) || OptionOf(options, ShowNewFeatureKey) == Bool(true))
  {
    if current.None? then options
    else if Less(le, current.value, pluginVersion) then options[ShowNewFeatureKey := Bool(true)]
    else options
  }

  /** A PHP array, as the config component hands configs around. */
  type PhpArray = seq<(Key, Value)>

  /** What migrate_configs takes from the Backup_Settings and Config_Adapter components. */
  datatype ConfigComponent = ConfigComponent(
    backupData: Value,                           // backup_data()
    configs: seq<(string, PhpArray)>,            // get_configs(): option name => config
    verifyConfigData: PhpArray -> bool,          // verify_config_data($config)
    hasNewStructure: Value -> bool,              // check_for_new_structure($config['configs'])
    upgrade: Value -> Value,                     // Config_Adapter::upgrade($data)
    restore: (Value, map<string, Value>) -> map<string, Value>,  // restore_data($data, true): the options it leaves
    moduleStrings: PhpArray -> Value)            // import_module_strings($new_data)

  /** The site state the upgrader changes: the options, and the data handed to restore_data, in order. */
  datatype SiteState = SiteState(options: map<string, Value>, restored: seq<Value>)

  /** A stored config that the loop of migrate_configs rewrites: a valid one in the old structure. */
  predicate NeedsMigration(c: ConfigComponent, config: PhpArray) {
    c.verifyConfigData(config) && !c.hasNewStructure(Lookup(config, "configs"))
  }

  /**
   * The config the loop writes back: the settings upgraded, the active tag
   * kept, and the module strings recomputed.
   */
  function MigratedConfig(c: ConfigComponent, config: PhpArray): (r: PhpArray)
    ensures Lookup(r, "configs") == c.upgrade(Lookup(config, "configs"))
    ensures Lookup(r, "is_active") == Lookup(config, "is_active")
    ensures forall k :: k != "configs" && k != "is_active" && k != "strings" ==> Lookup(r, k) == Lookup(config, k)
    ensures Lookup(r, "strings") == c.moduleStrings(Set(config, "configs", c.upgrade(Lookup(config, "configs"))))
  {
    var newData := Set(config, "configs", c.upgrade(Lookup(config, "configs")));
    var newData' := if Lookup(config, "is_active") != Null then Set(newData, "is_active", Lookup(config, "is_active")) else newData;
    assert newData' == newData by {
      if Lookup(config, "is_active") != Null {
        SetSameValue(newData, "is_active");
      }
    }
    Set(newData', "strings", c.moduleStrings(newData'))
  }

  /** The options after the loop of migrate_configs has handled `configs`. */
  function ConfigsLoop(c: ConfigComponent, options: map<string, Value>, configs: seq<(string, PhpArray)>): (r: map<string, Value>)
    ensures options.Keys <= r.Keys
    decreases |configs|
  {
    if configs == [] then options
    else
      var before := ConfigsLoop(c, options, configs[..|configs| - 1]);
      var (k, config) := configs[|configs| - 1];
      if NeedsMigration(c, config) then before[k := Arr(MigratedConfig(c, config))] else before
  }

  /** The loop writes only options named by a config: every other option keeps its value, or stays absent. */
  lemma {:induction false} ConfigsLoopKeepsOthers(c: ConfigComponent, options: map<string, Value>, configs: seq<(string, PhpArray)>, k: string)
    requires forall i :: 0 <= i < |configs| ==> configs[i].0 != k
    ensures k in ConfigsLoop(c, options, configs) <==> k in options
    ensures k in options ==> ConfigsLoop(c, options, configs)[k] == options[k]
    decreases |configs|
  {
    if configs != [] {
      ConfigsLoopKeepsOthers(c, options, configs[..|configs| - 1], k);
      assert configs[|configs| - 1].0 != k;
    }
  }

  /** A config that needs migration is stored in its migrated form, unless a later config has the same name. */
  lemma {:induction false} ConfigsLoopStores(c: ConfigComponent, options: map<string, Value>, configs: seq<(string, PhpArray)>, i: nat)
    requires i < |configs| && NeedsMigration(c, configs[i].1)
    requires forall j :: i < j < |configs| ==> configs[j].0 != configs[i].0
    ensures configs[i].0 in ConfigsLoop(c, options, configs)
    ensures ConfigsLoop(c, options, configs)[configs[i].0] == Arr(MigratedConfig(c, configs[i].1))
    decreases |configs|
  {
    if i < |configs| - 1 {
      ConfigsLoopStores(c, options, configs[..|configs| - 1], i);
    }
  }

  /** The gate of migrate_configs: 2.2 <= version < 2.4. */
  predicate MigratesConfigs(le: (string, string) -> bool, current: string) {
    AtLeast(le, current, ConfigsFrom) && Less(le, current, ConfigsBefore)
  }

  /** migrate_configs($current_version) */
  function MigrateConfigsSpec(le: (string, string) -> bool, c: ConfigComponent, s: SiteState, current: string): (r: SiteState)
    ensures !MigratesConfigs(le, current) || Empty(c.backupData) ==> r == s
    ensures MigratesConfigs(le, current) && !Empty(c.backupData) ==>
      r.restored == s.restored + [c.upgrade(c.backupData)]
  {
    if !MigratesConfigs(le, current) then s
    else if Empty(c.backupData) then s
    else
      var migrated := c.upgrade(c.backupData);
      var restored := s.restored + [migrated];
      var options := c.restore(migrated, s.options)[ShownActivatorKey := Bool(true)];
      SiteState(ConfigsLoop(c, options, c.configs), restored)
  }

  /**
   * When migrate_configs acts, it hides the onboarding page and, beside what
   * restore_data writes, writes only the configs' own options: every other
   * option keeps the value restore_data left.
   */
  lemma MigrateConfigsTouches(le: (string, string) -> bool, c: ConfigComponent, s: SiteState, current: string, k: string)
    requires MigratesConfigs(le, current) && !Empty(c.backupData)
    requires forall i :: 0 <= i < |c.configs| ==> c.configs[i].0 != k
    ensures k == ShownActivatorKey ==> OptionOf(MigrateConfigsSpec(le, c, s, current).options, k) == Bool(true)
    ensures k != ShownActivatorKey ==>
      OptionOf(MigrateConfigsSpec(le, c, s, current).options, k) == OptionOf(c.restore(c.upgrade(c.backupData), s.options), k)
  {
    ConfigsLoopKeepsOthers(c, c.restore(c.upgrade(c.backupData), s.options)[ShownActivatorKey := Bool(true)], c.configs, k);
  }

  // ---------------------------------------------------------------------------
  // run

  /** Everything run() takes from outside the upgrader. */
  datatype Environment = Environment(
    pluginDbVersion: string,                 // DEFENDER_DB_VERSION
    versionLe: (string, string) -> bool,     // version_compare($a, $b, '<=')
    jsonDecode: Value -> Value,              // json_decode($s, true)
    headersTable: string,                    // Security_Headers' option name
    headerDefaults: HeaderFields,            // a fresh Security_Headers
    configComponent: ConfigComponent)

  /** How run() ended: install, nothing to do, upgraded, or stopped by a TypeError. */
  datatype RunResult = Installed | AlreadyCurrent | Upgraded | Aborted(error: string)

  /** The gate of the security-headers migration: version < 2.2.9. */
  predicate MigratesHeaders(le: (string, string) -> bool, current: string) {
    Less(le, current, HeadersBefore)
  }

  /** run(): the outcome and the site state it leaves. */
  function RunSpec(env: Environment, s: SiteState): (r: (RunResult, SiteState))
    ensures r.0 == Installed <==> Empty(OptionOf(s.options, DbVersionKey))
    ensures r.0 == AlreadyCurrent <==> !Empty(OptionOf(s.options, DbVersionKey)) && OptionOf(s.options, DbVersionKey) == Str(env.pluginDbVersion)
    ensures r.0 == AlreadyCurrent ==> r.1 == s
    ensures r.0.Aborted? ==> r.0.error == ArrayGivenError
    ensures OptionOf(s.options, DbVersionKey).Arr? && !Empty(OptionOf(s.options, DbVersionKey)) ==> r == (Aborted(ArrayGivenError), s)
  {
    var stored := OptionOf(s.options, DbVersionKey);
    if Empty(stored) then (Installed, s.(options := s.options[DbVersionKey := Str(env.pluginDbVersion)]))
    else if stored == Str(env.pluginDbVersion) then (AlreadyCurrent, s)
    else
      var v := ToStr(stored);
      if v.Failure? then (Aborted(v.error), s)
      else
        var s1 := s.(options := ShowNewFeaturesSpec(env.versionLe, env.pluginDbVersion, s.options, Some(v.value)));
        var s2 := MigrateConfigsSpec(env.versionLe, env.configComponent, s1, v.value);
        if MigratesHeaders(env.versionLe, v.value) then
          var m := MigrateSecurityHeadersSpec(env.headersTable, env.headerDefaults, env.jsonDecode, s2.options);
          if m.Failure? then (Aborted(m.error), s2)
          else (Upgraded, SiteState(m.value[DbVersionKey := Str(env.pluginDbVersion)], s2.restored))
        else (Upgraded, s2.(options := s2.options[DbVersionKey := Str(env.pluginDbVersion)]))
  }

  /** Unless a TypeError stops it, run() leaves the stored version equal to the plugin's version. */
  lemma RunSettlesVersion(env: Environment, s: SiteState)
    requires !RunSpec(env, s).0.Aborted?
    ensures OptionOf(RunSpec(env, s).1.options, DbVersionKey) == Str(env.pluginDbVersion)
  {
  }

  /** A second run() after one that completed finds the version current and changes nothing. */
  lemma RunIdempotent(env: Environment, s: SiteState)
    requires !Empty(Str(env.pluginDbVersion))
    requires !RunSpec(env, s).0.Aborted?
    ensures RunSpec(env, RunSpec(env, s).1) == (AlreadyCurrent, RunSpec(env, s).1)
  {
    RunSettlesVersion(env, s);
  }

  /** A first install records the plugin's version and migrates nothing. */
  lemma RunInstallOnlyRecordsVersion(env: Environment, s: SiteState)
    requires Empty(OptionOf(s.options, DbVersionKey))
    ensures RunSpec(env, s) == (Installed, SiteState(s.options[DbVersionKey := Str(env.pluginDbVersion)], s.restored))
  {
  }

  /** A site on version 2.4 or later, below the plugin's version, only gets the notice flag and the new version. */
  lemma RunFromModernVersion(env: Environment, s: SiteState, v: string)
    requires TotalPreorder(env.versionLe)
    requires env.versionLe(HeadersBefore, ConfigsBefore)
    requires OptionOf(s.options, DbVersionKey) == Str(v) && v != "" && v != "0" && v != env.pluginDbVersion
    requires AtLeast(env.versionLe, v, ConfigsBefore)
    ensures RunSpec(env, s).0 == Upgraded
    ensures RunSpec(env, s).1.restored == s.restored
    ensures RunSpec(env, s).1.options
         == ShowNewFeaturesSpec(env.versionLe, env.pluginDbVersion, s.options, Some(v))[DbVersionKey := Str(env.pluginDbVersion)]
  {
    assert env.versionLe(HeadersBefore, v);
    assert !MigratesHeaders(env.versionLe, v);
    assert !MigratesConfigs(env.versionLe, v);
  }

  /** A site older than 2.2 gets the security headers migrated but not the configs. */
  lemma RunFromLegacyVersion(env: Environment, s: SiteState, v: string)
    requires TotalPreorder(env.versionLe)
    requires env.versionLe(ConfigsFrom, HeadersBefore)
    requires OptionOf(s.options, DbVersionKey) == Str(v) && v != "" && v != "0" && v != env.pluginDbVersion
    requires Less(env.versionLe, v, ConfigsFrom)
    ensures RunSpec(env, s).1.restored == s.restored
    ensures var o1 := ShowNewFeaturesSpec(env.versionLe, env.pluginDbVersion, s.options, Some(v));
            var m := MigrateSecurityHeadersSpec(env.headersTable, env.headerDefaults, env.jsonDecode, o1);
            && (m.Failure? ==> RunSpec(env, s) == (Aborted(m.error), s.(options := o1)))
            && (m.Success? ==> RunSpec(env, s) == (Upgraded, SiteState(m.value[DbVersionKey := Str(env.pluginDbVersion)], s.restored)))
  {
    assert !MigratesConfigs(env.versionLe, v);
    assert !env.versionLe(HeadersBefore, v);
    assert MigratesHeaders(env.versionLe, v);
  }

  /**
   * A site on a version from 2.2 up to 2.4 gets, in this order: the notice
   * flag, the config migration, the security-headers migration when the
   * version is also below 2.2.9, and the new version.
   */
  lemma RunFromConfigsWindow(env: Environment, s: SiteState, v: string)
    requires OptionOf(s.options, DbVersionKey) == Str(v) && v != "" && v != "0" && v != env.pluginDbVersion
    requires MigratesConfigs(env.versionLe, v)
    ensures var s1 := s.(options := ShowNewFeaturesSpec(env.versionLe, env.pluginDbVersion, s.options, Some(v)));
            var s2 := MigrateConfigsSpec(env.versionLe, env.configComponent, s1, v);
            var m := MigrateSecurityHeadersSpec(env.headersTable, env.headerDefaults, env.jsonDecode, s2.options);
            && (!MigratesHeaders(env.versionLe, v) ==>
                  RunSpec(env, s) == (Upgraded, s2.(options := s2.options[DbVersionKey := Str(env.pluginDbVersion)])))
            && (MigratesHeaders(env.versionLe, v) && m.Failure? ==> RunSpec(env, s) == (Aborted(m.error), s2))
            && (MigratesHeaders(env.versionLe, v) && m.Success? ==>
                  RunSpec(env, s) == (Upgraded, SiteState(m.value[DbVersionKey := Str(env.pluginDbVersion)], s2.restored)))
    ensures !Empty(env.configComponent.backupData) ==>
      RunSpec(env, s).1.restored == s.restored + [env.configComponent.upgrade(env.configComponent.backupData)]
  {
    assert ToStr(Str(v)) == Success(v);
  }

  /**
   * Whatever the stored version, a run that does not migrate the security
   * headers leaves their option as it was, given that it is none of the
   * options the upgrader writes and no config or restore_data writes it.
   */
  lemma RunSkipsHeadersOption(env: Environment, s: SiteState)
    requires var stored := OptionOf(s.options, DbVersionKey);
      ToStr(stored).Success? ==> !MigratesHeaders(env.versionLe, ToStr(stored).value)
    requires env.headersTable != DbVersionKey && env.headersTable != ShowNewFeatureKey && env.headersTable != ShownActivatorKey
    requires forall i :: 0 <= i < |env.configComponent.configs| ==> env.configComponent.configs[i].0 != env.headersTable
    requires RestoreKeeps(env.configComponent, env.headersTable)
    ensures OptionOf(RunSpec(env, s).1.options, env.headersTable) == OptionOf(s.options, env.headersTable)
  {
    var stored := OptionOf(s.options, DbVersionKey);
    var v := ToStr(stored);
    if !Empty(stored) && stored != Str(env.pluginDbVersion) && v.Success? {
      var o1 := ShowNewFeaturesSpec(env.versionLe, env.pluginDbVersion, s.options, Some(v.value));
      assert OptionOf(o1, env.headersTable) == OptionOf(s.options, env.headersTable);
      var s1 := s.(options := o1);
      if MigratesConfigs(env.versionLe, v.value) && !Empty(env.configComponent.backupData) {
        MigrateConfigsTouches(env.versionLe, env.configComponent, s1, v.value, env.headersTable);
        assert OptionOf(env.configComponent.restore(env.configComponent.upgrade(env.configComponent.backupData), o1), env.headersTable)
            == OptionOf(o1, env.headersTable);
      }
    }
  }

  /** restore_data, given the upgraded backup, leaves the option `key` as it finds it. */
  ghost predicate RestoreKeeps(c: ConfigComponent, key: string) {
    forall o: map<string, Value> :: OptionOf(c.restore(c.upgrade(c.backupData), o), key) == OptionOf(o, key)
  }

  /** A TypeError stops run() before the version is recorded, so the next load tries again. */
  lemma RunAbortKeepsVersion(env: Environment, s: SiteState)
    requires RunSpec(env, s).0.Aborted?
    requires RestoreKeeps(env.configComponent, DbVersionKey)
    requires forall i :: 0 <= i < |env.configComponent.configs| ==> env.configComponent.configs[i].0 != DbVersionKey
    ensures OptionOf(RunSpec(env, s).1.options, DbVersionKey) == OptionOf(s.options, DbVersionKey)
  {
    var stored := OptionOf(s.options, DbVersionKey);
    var v := ToStr(stored);
    if v.Success? {
      var o1 := ShowNewFeaturesSpec(env.versionLe, env.pluginDbVersion, s.options, Some(v.value));
      assert OptionOf(o1, DbVersionKey) == stored;
      var s1 := s.(options := o1);
      if MigratesConfigs(env.versionLe, v.value) && !Empty(env.configComponent.backupData) {
        MigrateConfigsTouches(env.versionLe, env.configComponent, s1, v.value, DbVersionKey);
        assert OptionOf(env.configComponent.restore(env.configComponent.upgrade(env.configComponent.backupData), o1), DbVersionKey) == stored;
      }
    }
  }

  // ---------------------------------------------------------------------------
  // The imperative model

  /** The WordPress site options, and the config data restore_data received. */
  class Site {
    var options: map<string, Value>
    var restored: seq<Value>

    function State(): SiteState
      reads this
    {
      SiteState(options, restored)
    }

    constructor (options: map<string, Value>)
      ensures State() == SiteState(options, [])
    {
      this.options := options;
      this.restored := [];
    }
  }

  /** The Security_Headers settings object migrate_security_headers fills in. */
  class SecurityHeaders {
    var shXframe: Value
    var shXframeMode: Value
    var shXframeUrls: Value
    var shXssProtection: Value
    var shXssProtectionMode: Value
    var shContentTypeOptions: Value
    var shContentTypeOptionsMode: Value
    var shStrictTransport: Value
    var hstsPreload: Value
    var includeSubdomain: Value
    var hstsCacheDuration: Value
    var shReferrerPolicy: Value
    var shReferrerPolicyMode: Value
    var shFeaturePolicy: Value
    var shFeaturePolicyMode: Value
    var shFeaturePolicyUrls: Value

    function Fields(): HeaderFields
      reads this
    {
      HeaderFields(shXframe, shXframeMode, shXframeUrls, shXssProtection, shXssProtectionMode,
                   shContentTypeOptions, shContentTypeOptionsMode, shStrictTransport, hstsPreload,
                   includeSubdomain, hstsCacheDuration, shReferrerPolicy, shReferrerPolicyMode,
                   shFeaturePolicy, shFeaturePolicyMode, shFeaturePolicyUrls)
    }

    /** new Security_Headers(): the settings with their defaults. */
    constructor (d: HeaderFields)
      ensures Fields() == d
    {
      shXframe, shXframeMode, shXframeUrls := d.shXframe, d.shXframeMode, d.shXframeUrls;
      shXssProtection, shXssProtectionMode := d.shXssProtection, d.shXssProtectionMode;
      shContentTypeOptions, shContentTypeOptionsMode := d.shContentTypeOptions, d.shContentTypeOptionsMode;
      shStrictTransport, hstsPreload, includeSubdomain, hstsCacheDuration :=
        d.shStrictTransport, d.hstsPreload, d.includeSubdomain, d.hstsCacheDuration;
      shReferrerPolicy, shReferrerPolicyMode := d.shReferrerPolicy, d.shReferrerPolicyMode;
      shFeaturePolicy, shFeaturePolicyMode, shFeaturePolicyUrls := d.shFeaturePolicy, d.shFeaturePolicyMode, d.shFeaturePolicyUrls;
    }

    /** The X-Frame-Options block. */
    method MigrateXFrame(data: Value) returns (err: Option<string>)
      modifies this
      ensures XFrame(old(Fields()), data).Failure? ==> err == Some(XFrame(old(Fields()), data).error)
      ensures XFrame(old(Fields()), data).Success? ==> err.None? && Fields() == XFrame(old(Fields()), data).value
    {
      var headerData := Get(data, "sh_xframe");
      if Present(headerData) {
        var mode: Option<string> := None;
        var m := Get(headerData, "mode");
        if Present(m) {
          var s := ToStr(m);
          if s.Failure? {
            return Some(s.error);
          }
          mode := Some(Lower(s.value));
        }
        if mode == Some("allow-from") {
          shXframeMode := Str("allow-from");
          var values := Get(headerData, "values");
          if Present(values) {
            var s := ToStr(values);
            if s.Failure? {
              return Some(s.error);
            }
            var urls := Explode(' ', s.value);
            shXframeUrls := Str(Implode("\n", urls));
          }
        } else if mode == Some("sameorigin") || mode == Some("deny") {
          shXframeMode := Str(mode.value);
        }
        shXframe := Bool(true);
      }
      return None;
    }

    /** The X-XSS-Protection block. */
    method MigrateXss(data: Value)
      modifies this
      ensures Fields() == Xss(old(Fields()), data)
    {
      var headerData := Get(data, "sh_xss_protection");
      if Present(headerData) {
        var m := Get(headerData, "mode");
        if Present(m) && (m == Str("sanitize") || m == Str("block")) {
          shXssProtectionMode := m;
          shXssProtection := Bool(true);
        }
      }
    }

    /** The X-Content-Type-Options block. */
    method MigrateContentType(data: Value)
      modifies this
      ensures Fields() == ContentType(old(Fields()), data)
    {
      var headerData := Get(data, "sh_content_type_options");
      if Present(headerData) {
        var m := Get(headerData, "mode");
        if Present(m) {
          shContentTypeOptionsMode := m;
          shContentTypeOptions := Bool(true);
        }
      }
    }

    /** The Strict-Transport-Security block. */
    method MigrateStrictTransport(data: Value)
      modifies this
      ensures Fields() == StrictTransport(old(Fields()), data)
    {
      var headerData := Get(data, "sh_strict_transport");
      if Present(headerData) {
        var preload := Get(headerData, "hsts_preload");
        if Present(preload) {
          hstsPreload := Int(IntCast(preload));
        }
        var sub := Get(headerData, "include_subdomain");
        if Present(sub) {
          includeSubdomain := Int(if IsTrueFlag(sub) then 1 else 0);
        }
        var duration := Get(headerData, "hsts_cache_duration");
        if Present(duration) {
          hstsCacheDuration := duration;
        }
        shStrictTransport := Bool(true);
      }
    }

    /** The Referrer-Policy block. */
    method MigrateReferrer(data: Value)
      modifies this
      ensures Fields() == Referrer(old(Fields()), data)
    {
      var headerData := Get(data, "sh_referrer_policy");
      if Present(headerData) {
        var m := Get(headerData, "mode");
        if Present(m) {
          shReferrerPolicyMode := m;
          shReferrerPolicy := Bool(true);
        }
      }
    }

    /** The Feature-Policy block. */
    method MigrateFeaturePolicy(data: Value) returns (err: Option<string>)
      modifies this
      ensures FeaturePolicy(old(Fields()), data).Failure? ==> err == Some(FeaturePolicy(old(Fields()), data).error)
      ensures FeaturePolicy(old(Fields()), data).Success? ==> err.None? && Fields() == FeaturePolicy(old(Fields()), data).value
    {
      var headerData := Get(data, "sh_feature_policy");
      if Present(headerData) {
        var m := Get(headerData, "mode");
        if Present(m) {
          var s := ToStr(m);
          if s.Failure? {
            return Some(s.error);
          }
          var mode := Lower(s.value);
          shFeaturePolicyMode := Str(mode);
          var values := Get(headerData, "values");
          if mode == "origins" && Present(values) {
            if values.Arr? {
              shFeaturePolicyUrls := Str(Implode("\n", ElemStrings(values.entries)));
            } else if values.Str? {
              var urls := Explode(' ', values.s);
              shFeaturePolicyUrls := Str(Implode("\n", urls));
            }
          }
          shFeaturePolicy := Bool(true);
        }
      }
      return None;
    }
  }

  /** The upgrader, with what it reads from outside. */
  class Upgrader {
    const env: Environment

    constructor (env: Environment)
      ensures this.env == env
    {
      this.env := env;
    }

    /** migrate_security_headers(): a TypeError leaves the options as they were. */
    method MigrateSecurityHeaders(site: Site) returns (err: Option<string>)
      modifies site`options
      ensures var spec := MigrateSecurityHeadersSpec(env.headersTable, env.headerDefaults, env.jsonDecode, old(site.options));
        && (spec.Failure? ==> err == Some(spec.error) && site.options == old(site.options))
        && (spec.Success? ==> err.None? && site.options == spec.value)
    {
      var option := OptionOf(site.options, env.headersTable);
      if Empty(option) {
        var oldSettings := OptionOf(site.options, HardenerKey);
        if !oldSettings.Arr? {
          oldSettings := env.jsonDecode(oldSettings);
          var data := Get(oldSettings, "data");
          if oldSettings.Arr? && Present(data) {
            var model := new SecurityHeaders(env.headerDefaults);
            err := model.MigrateXFrame(data);
            if err.Some? {
              return;
            }
            model.MigrateXss(data);
            model.MigrateContentType(data);
            model.MigrateStrictTransport(data);
            model.MigrateReferrer(data);
            ghost var before := model.Fields();
            err := model.MigrateFeaturePolicy(data);
            FeaturePolicyFailsAlike(env.headerDefaults, before, data);
            if err.Some? {
              return;
            }
            site.options := site.options[env.headersTable := HeadersValue(model.Fields())];
          }
        }
      }
      return None;
    }

    /** maybe_show_new_features($current_version) */
    method MaybeShowNewFeatures(site: Site, current: Option<string>)
      modifies site`options
      ensures site.options == ShowNewFeaturesSpec(env.versionLe, env.pluginDbVersion, old(site.options), current)
    {
      if current.None? {
        return;
      }
      if Less(env.versionLe, current.value, env.pluginDbVersion) {
        site.options := site.options[ShowNewFeatureKey := Bool(true)];
      }
    }

    /** migrate_configs($current_version) */
    method MigrateConfigs(site: Site, current: string)
      modifies site
      ensures site.State() == MigrateConfigsSpec(env.versionLe, env.configComponent, old(site.State()), current)
    {
      var c := env.configComponent;
      if AtLeast(env.versionLe, current, ConfigsFrom) && Less(env.versionLe, current, ConfigsBefore) {
        var prevData := c.backupData;
        if Empty(prevData) {
          return;
        }
        var migratedData := c.upgrade(prevData);
        site.restored := site.restored + [migratedData];
        site.options := c.restore(migratedData, site.options)[ShownActivatorKey := Bool(true)];
        var options := site.options;
        ghost var start := options;
        var configs := c.configs;
        var i := 0;
        while i < |configs|
          invariant 0 <= i <= |configs|
          invariant options == ConfigsLoop(c, start, configs[..i])
          invariant site.restored == old(site.restored) + [migratedData]
        {
          var (k, config) := configs[i];
          assert configs[..i + 1][..i] == configs[..i];
          if c.verifyConfigData(config) && !c.hasNewStructure(Lookup(config, "configs")) {
            var newData := MigrateConfig(config);
            options := options[k := Arr(newData)];
          }
          i := i + 1;
        }
        assert configs[..|configs|] == configs;
        site.options := options;
      }
    }

    /** The body of the loop of migrate_configs: the config in the new structure. */
    method MigrateConfig(config: PhpArray) returns (newData: PhpArray)
      ensures newData == MigratedConfig(env.configComponent, config)
    {
      var c := env.configComponent;
      newData := Set(config, "configs", c.upgrade(Lookup(config, "configs")));
      if Lookup(config, "is_active") != Null {
        newData := Set(newData, "is_active", Lookup(config, "is_active"));
      }
      newData := Set(newData, "strings", c.moduleStrings(newData));
    }

    /** run() */
    method Run(site: Site) returns (r: RunResult)
      modifies site
      ensures (r, site.State()) == RunSpec(env, old(site.State()))
    {
      var dbVersion := OptionOf(site.options, DbVersionKey);
      if Empty(dbVersion) {
        site.options := site.options[DbVersionKey := Str(env.pluginDbVersion)];
        return Installed;
      }
      if dbVersion == Str(env.pluginDbVersion) {
        return AlreadyCurrent;
      }
      var v := ToStr(dbVersion);
      if v.Failure? {
        return Aborted(v.error);
      }
      MaybeShowNewFeatures(site, Some(v.value));
      MigrateConfigs(site, v.value);
      if Less(env.versionLe, v.value, HeadersBefore) {
        var err := MigrateSecurityHeaders(site);
        if err.Some? {
          return Aborted(err.value);
        }
      }
      site.options := site.options[DbVersionKey := Str(env.pluginDbVersion)];
      return Upgraded;
    }
  }
}
