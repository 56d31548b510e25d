/**
 * The CloudFront site decorator of decorator/distribution.go. Building the
 * decorator names the site's bucket after the (sub)domain; running its hook
 * adds a Route53 alias record and a CloudFront distribution to the
 * CloudFormation template, the record pointing at the distribution and the
 * distribution's single origin at the site bucket.
 *
 * The host framework's logical-name function and the site bucket's own
 * logical name are parameters: their definitions are not part of this model.
 */
module Decorator {
  import opened Wrappers

  /** CloudFront's well-known hosted-zone ID, the zone of every alias onto a distribution. */
  const CloudFrontHostedZoneId := "Z2FDTNDATAQYW2"
  const S3OriginId := "S3Origin"
  const DefaultIndexDocument := "index.html"

  /** A CloudFormation string: a literal, or an `Fn::GetAtt` resolved by the template engine. */
  datatype StringExpr = Literal(value: string) | GetAtt(logicalName: string, attribute: string)

  datatype IndexDocumentConfig = IndexDocumentConfig(suffix: Option<string>)
  datatype WebsiteConfig = WebsiteConfig(indexDocument: Option<IndexDocumentConfig>)

  datatype AliasTarget = AliasTarget(hostedZoneId: StringExpr, dnsName: StringExpr)

  /** CloudFront's S3 origin settings; the decorator sets none of them. */
  datatype S3OriginConfig = EmptyS3OriginConfig

  /** An origin; `s3OriginConfig` is None for a non-S3 (custom) origin. */
  datatype Origin = Origin(domainName: StringExpr, id: StringExpr, s3OriginConfig: Option<S3OriginConfig>)

  datatype CacheBehavior = CacheBehavior(forwardQueryString: bool, targetOriginId: StringExpr,
                                         viewerProtocolPolicy: StringExpr)

  datatype DistributionConfig = DistributionConfig(
    aliases: seq<Option<StringExpr>>,
    defaultRootObject: StringExpr,
    origins: seq<Origin>,
    enabled: bool,
    defaultCacheBehavior: CacheBehavior)

  /** The template's resources: the two this decorator builds, and any other kind. */
  datatype Resource =
    | Route53RecordSet(hostedZoneName: StringExpr, name: StringExpr, recordType: StringExpr,
                       aliasTarget: AliasTarget)
    | CloudFrontDistribution(distributionConfig: DistributionConfig)
    | OtherResource(resourceType: string)

  /** The static-site bucket configuration, owned by the caller and updated in place. */
  class S3Site {
    var bucketName: Option<StringExpr>
    var websiteConfiguration: Option<WebsiteConfig>

    constructor (websiteConfiguration: Option<WebsiteConfig>)
      ensures bucketName == None && this.websiteConfiguration == websiteConfiguration
    {
      bucketName := None;
      this.websiteConfiguration := websiteConfiguration;
    }
  }

  /** A CloudFormation template: resources by logical name. */
  class Template {
    var resources: map<string, Resource>

    constructor (resources: map<string, Resource>)
      ensures this.resources == resources
    {
      this.resources := resources;
    }

    /** Stores `resource` under `name`, replacing whatever was there. */
    method AddResource(name: string, resource: Resource)
      modifies this
      ensures resources == old(resources)[name := resource]
    {
      resources := resources[name := resource];
    }
  }

  // ---------------------------------------------------------------------
  // Derived names and descriptors
  // ---------------------------------------------------------------------

  /** The bucket (and site host) name: `subdomain.domainName`, or the bare domain without a subdomain. */
  function BucketName(subdomain: string, domainName: string): (name: string)
    ensures subdomain == "" ==> name == domainName
    ensures subdomain != "" ==> name == subdomain + "." + domainName
    ensures |name| >= |domainName| && name[|name| - |domainName|..] == domainName
  {
    if subdomain != "" then subdomain + "." + domainName else domainName
  }

  /** Different subdomains of one domain never share a bucket name. */
  lemma BucketNameInjective(s1: string, s2: string, domainName: string)
    requires BucketName(s1, domainName) == BucketName(s2, domainName)
    ensures s1 == s2
  {
    var n := BucketName(s1, domainName);
    if s1 != "" && s2 != "" {
      assert |s1| == |s2|;
      assert s1 == n[..|s1|];
      assert s2 == n[..|s2|];
    }
  }

  /** The hosted zone the record lives in: the domain with the DNS root's trailing dot. */
  function HostedZoneName(domainName: string): (zone: string)
    ensures |zone| == |domainName| + 1 && zone[..|domainName|] == domainName && zone[|domainName|] == '.'
  {
    domainName + "."
  }

  /** The suffix configured for the website's index document, when every level of it is present. */
  function ConfiguredSuffix(website: Option<WebsiteConfig>): (suffix: Option<string>)
    ensures suffix.Some? <==> website.Some? && website.value.indexDocument.Some?
                              && website.value.indexDocument.value.suffix.Some?
    ensures suffix.Some? ==> suffix == website.value.indexDocument.value.suffix
  {
    if website.Some? && website.value.indexDocument.Some? && website.value.indexDocument.value.suffix.Some?
    then website.value.indexDocument.value.suffix
    else None
  }

  /**
   * The distribution's default root object: the configured suffix, used as
   * it is (even when empty), or `index.html` when none is configured.
   */
  function IndexDocument(website: Option<WebsiteConfig>): (doc: string)
    ensures ConfiguredSuffix(website).Some? ==> doc == ConfiguredSuffix(website).value
    ensures ConfiguredSuffix(website).None? ==> doc == DefaultIndexDocument
  {
    ConfiguredSuffix(website).GetOr(DefaultIndexDocument)
  }

  /** The alias record resolves `name` onto the distribution logically named `distroName`. */
  predicate AliasesDistribution(record: Resource, distroName: string)
  {
    && record.Route53RecordSet?
    && record.recordType == Literal("A")
    && record.aliasTarget.hostedZoneId == Literal(CloudFrontHostedZoneId)
    && record.aliasTarget.dnsName == GetAtt(distroName, "DomainName")
  }

  /** The Route53 A record naming the site, an alias onto the distribution. */
  function DnsRecord(bucketName: string, domainName: string, distroName: string): (record: Resource)
    ensures AliasesDistribution(record, distroName)
    ensures record.hostedZoneName == Literal(HostedZoneName(domainName))
    ensures record.name == Literal(bucketName)
  {
    Route53RecordSet(
      Literal(HostedZoneName(domainName)),
      Literal(bucketName),
      Literal("A"),
      AliasTarget(Literal(CloudFrontHostedZoneId), GetAtt(distroName, "DomainName")))
  }

  /** The cache behaviour forwards to an origin that the distribution actually has. */
  predicate OriginsConsistent(config: DistributionConfig)
  {
    exists i :: 0 <= i < |config.origins| && config.origins[i].id == config.defaultCacheBehavior.targetOriginId
  }

  /** The distribution fronting the site bucket logically named `s3LogicalName`. */
  function Distribution(siteBucketName: Option<StringExpr>, website: Option<WebsiteConfig>,
                        s3LogicalName: string): (distro: Resource)
    ensures distro.CloudFrontDistribution?
    ensures OriginsConsistent(distro.distributionConfig)
    ensures var c := distro.distributionConfig;
      && c.aliases == [siteBucketName]
      && c.defaultRootObject == Literal(IndexDocument(website))
      && c.origins == [Origin(GetAtt(s3LogicalName, "DomainName"), Literal(S3OriginId), Some(EmptyS3OriginConfig))]
      && c.enabled
      && !c.defaultCacheBehavior.forwardQueryString
      && c.defaultCacheBehavior.viewerProtocolPolicy == Literal("allow-all")
  {
    var origin := Origin(GetAtt(s3LogicalName, "DomainName"), Literal(S3OriginId), Some(EmptyS3OriginConfig));
    var behavior := CacheBehavior(false, Literal(S3OriginId), Literal("allow-all"));
    var config := DistributionConfig([siteBucketName], Literal(IndexDocument(website)), [origin], true, behavior);
    assert config.origins[0].id == config.defaultCacheBehavior.targetOriginId;
    CloudFrontDistribution(config)
  }

  /** In `resources`, the record under `dnsName` is an alias onto a distribution of the same template. */
  predicate AliasResolves(resources: map<string, Resource>, dnsName: string)
  {
    && dnsName in resources
    && resources[dnsName].Route53RecordSet?
    && resources[dnsName].aliasTarget.dnsName.GetAtt?
    && resources[dnsName].aliasTarget.dnsName.logicalName in resources
    && resources[resources[dnsName].aliasTarget.dnsName.logicalName].CloudFrontDistribution?
  }

  /**
   * The template after the hook: the record added under `dnsName`, then the
   * distribution under `distroName`. With distinct logical names both are
   * present, the alias resolves and nothing else changes; were the names
   * equal, the distribution would replace the record.
   */
  function Decorate(resources: map<string, Resource>, bucketName: string, domainName: string,
                    siteBucketName: Option<StringExpr>, website: Option<WebsiteConfig>,
                    dnsName: string, distroName: string, s3LogicalName: string): (r: map<string, Resource>)
    ensures r.Keys == resources.Keys + {dnsName, distroName}
    ensures forall k :: k in resources && k != dnsName && k != distroName ==> r[k] == resources[k]
    ensures r[distroName] == Distribution(siteBucketName, website, s3LogicalName)
    ensures dnsName != distroName ==>
      && r[dnsName] == DnsRecord(bucketName, domainName, distroName)
      && AliasResolves(r, dnsName)
    ensures dnsName == distroName ==> !r[dnsName].Route53RecordSet?
  {
    resources[dnsName := DnsRecord(bucketName, domainName, distroName)]
             [distroName := Distribution(siteBucketName, website, s3LogicalName)]
  }

  /**
   * While the site still carries the bucket name the decorator gave it, the
   * distribution's only alias is the record's name: the two agree on the host.
   */
  lemma AliasMatchesRecordName(resources: map<string, Resource>, bucketName: string, domainName: string,
                               website: Option<WebsiteConfig>, dnsName: string, distroName: string,
                               s3LogicalName: string)
    requires dnsName != distroName
    ensures var r := Decorate(resources, bucketName, domainName, Some(Literal(bucketName)), website,
                              dnsName, distroName, s3LogicalName);
      r[distroName].distributionConfig.aliases == [Some(r[dnsName].name)]
  {
  }

  /** The record's zone depends on the domain alone, whatever the subdomain. */
  lemma HostedZoneIgnoresSubdomain(s1: string, s2: string, domainName: string, distroName: string)
    ensures DnsRecord(BucketName(s1, domainName), domainName, distroName).hostedZoneName
         == DnsRecord(BucketName(s2, domainName), domainName, distroName).hostedZoneName
  {
  }

  // ---------------------------------------------------------------------
  // The decorator and its hook
  // ---------------------------------------------------------------------

  /**
   * CloudFrontSiteDistributionDecorator and the hook it returns: the object
   * holds what the Go closure captures (the site pointer, the computed
   * bucket name and the domain).
   */
  class DistributionDecorator {
    const site: S3Site
    const bucketName: string
    const domainName: string

    /** The site still carries the name the decorator gave its bucket. */
    predicate Valid()
      reads this, site
    {
      site.bucketName == Some(Literal(bucketName))
    }

    /** Names the site's bucket at once, before any hook runs. */
    constructor (site: S3Site, subdomain: string, domainName: string)
      modifies site
      ensures this.site == site && this.domainName == domainName
      ensures bucketName == BucketName(subdomain, domainName)
      ensures site.bucketName == Some(Literal(BucketName(subdomain, domainName)))
      ensures site.websiteConfiguration == old(site.websiteConfiguration)
      ensures Valid()
    {
      var name := domainName;
      if subdomain != "" {
        name := subdomain + "." + domainName;
      }
      this.site := site;
      this.bucketName := name;
      this.domainName := domainName;
      new;
      site.bucketName := Some(Literal(name));
    }

    /**
     * The service decorator hook: adds the record and then the distribution
     * to `template` and reports no error. The site's bucket name and website
     * configuration are read when the hook runs.
     */
    method Hook(template: Template, resourceName: (string, string) -> string, s3LogicalName: string)
      returns (err: Option<string>)
      modifies template
      ensures err == None
      ensures template.resources == Decorate(old(template.resources), bucketName, domainName,
                                             site.bucketName, site.websiteConfiguration,
                                             resourceName("DNSRecord", "DNSRecord"),
                                             resourceName("CloudFrontDistro", "CloudFrontDistro"),
                                             s3LogicalName)
      ensures Valid()
              ==> template.resources[resourceName("CloudFrontDistro", "CloudFrontDistro")].distributionConfig.aliases
                  == [Some(Literal(bucketName))]
    {
      var dnsName := resourceName("DNSRecord", "DNSRecord");
      var distroName := resourceName("CloudFrontDistro", "CloudFrontDistro");
      template.AddResource(dnsName, DnsRecord(bucketName, domainName, distroName));
      template.AddResource(distroName, Distribution(site.bucketName, site.websiteConfiguration, s3LogicalName));
      return None;
    }
  }

  /** With a configured suffix the root object is that suffix; with no website configuration, `index.html`. */
  lemma IndexDocumentExamples()
    ensures IndexDocument(Some(WebsiteConfig(Some(IndexDocumentConfig(Some("home.html")))))) == "home.html"
    ensures IndexDocument(None) == "index.html"
    ensures IndexDocument(Some(WebsiteConfig(Some(IndexDocumentConfig(Some("")))))) == ""
  {
  }
}
