/**
 * The orbit of next_color with sign +1 from red: 96 steps of 16 around the
 * six edges of the RGB cube (red, yellow, green, cyan, blue, magenta) and
 * back to red, and the backward step that retraces it.
 */
module HueWheel {
  import opened Common

  const RED: nat := 0xFF0000

  /** A channel rising from 0 in steps of 16, held at 255. */
  function Up(k: nat): Byte {
    if 16 * k < 255 then 16 * k else 255
  }

  /** A channel falling from 255 in steps of 16, held at 0. */
  function Down(k: nat): Byte {
    if 16 * k < 255 then 255 - 16 * k else 0
  }

  /** The colour k steps along edge e of the wheel. */
  function EdgeColor(e: nat, k: nat): Channels
    requires e < 6
  {
    if e == 0 then Channels(255, Up(k), 0)
    else if e == 1 then Channels(Down(k), 255, 0)
    else if e == 2 then Channels(0, 255, Up(k))
    else if e == 3 then Channels(0, Down(k), 255)
    else if e == 4 then Channels(Up(k), 0, 255)
    else Channels(255, 0, Down(k))
  }

  /** The colour after n presses of "next" from `color`. */
  function Forward(color: nat, n: nat): (r: nat)
    requires color < 0x1_0000_0000
    ensures r < 0x1_0000_0000
  {
    if n == 0 then color else NextColor(Forward(color, n - 1), 1)
  }

  /** One forward step moves one place along the edge. */
  lemma StepAlongEdge(e: nat, k: nat)
    requires e < 6 && k < 16
    ensures NextChannels(EdgeColor(e, k), 1) == EdgeColor(e, k + 1)
  {
  }

  /** The end of each edge is the start of the next; the last edge ends at red. */
  lemma EdgesJoin(e: nat)
    requires e < 6
    ensures e < 5 ==> EdgeColor(e, 16) == EdgeColor(e + 1, 0)
    ensures e == 5 ==> EdgeColor(e, 16) == Unpack(RED)
  {
  }

  /** One backward step moves one place back along the edge, and stays put at its start. */
  lemma StepBackAlongEdge(e: nat, k: nat)
    requires e < 6 && k < 16
    ensures NextChannels(EdgeColor(e, k), -1) == if k == 0 then EdgeColor(e, 0) else EdgeColor(e, k - 1)
  {
  }

  /** The channels after n forward steps. */
  function Orbit(c: Channels, n: nat): Channels {
    if n == 0 then c else NextChannels(Orbit(c, n - 1), 1)
  }

  /** Pressing "next" n times on a packed colour follows the channel orbit. */
  lemma {:induction false} ForwardPacked(c: Channels, n: nat)
    ensures Forward(Pack(c), n) == Pack(Orbit(c, n))
  {
    if n > 0 {
      ForwardPacked(c, n - 1);
      NextColorPacked(Orbit(c, n - 1), 1);
    }
  }

  /** One more forward step from a point of the orbit. */
  lemma OrbitStep(c: Channels, n: nat, before: Channels, after: Channels)
    requires n > 0 && Orbit(c, n - 1) == before && NextChannels(before, 1) == after
    ensures Orbit(c, n) == after
  {
  }

  /** n = 16e + k forward steps from red land k places along edge e. */
  lemma {:induction false} OrbitFromRed(e: nat, k: nat, n: nat)
    requires e < 6 && k <= 16 && n == 16 * e + k
    ensures Orbit(EdgeColor(0, 0), n) == EdgeColor(e, k)
    decreases e, k
  {
    if k == 0 && e > 0 {
      OrbitFromRed(e - 1, 16, n);
      EdgesJoin(e - 1);
    } else if k > 0 {
      OrbitFromRed(e, k - 1, n - 1);
      StepAlongEdge(e, k - 1);
      OrbitStep(EdgeColor(0, 0), n, EdgeColor(e, k - 1), EdgeColor(e, k));
    }
  }

  /** n = 16e + k presses of "next" from red give the colour k places along edge e. */
  lemma ForwardFromRed(e: nat, k: nat, n: nat)
    requires e < 6 && k <= 16 && n == 16 * e + k
    ensures Forward(RED, n) == Pack(EdgeColor(e, k))
  {
    ForwardPacked(EdgeColor(0, 0), n);
    OrbitFromRed(e, k, n);
  }

  /** The vertices of the wheel in the order "next" visits them. */
  const VERTICES: seq<nat> := [0xFF0000, 0xFFFF00, 0x00FF00, 0x00FFFF, 0x0000FF, 0xFF00FF]

  /** The start of edge e is the e-th vertex. */
  lemma VertexColor(e: nat)
    requires e < 6
    ensures Pack(EdgeColor(e, 0)) == VERTICES[e]
  {
    if e == 0 {} else if e == 1 {} else if e == 2 {} else if e == 3 {} else if e == 4 {} else {}
  }

  /** Every 16 presses the wheel reaches the next vertex. */
  lemma WheelVertices(e: nat, n: nat)
    requires e < 6 && n == 16 * e
    ensures Forward(RED, n) == VERTICES[e]
  {
    ForwardFromRed(e, 0, n);
    VertexColor(e);
  }

  /** After the six edges, 96 presses, the wheel is back at red. */
  lemma WheelCloses(n: nat)
    requires n == 16 * 6
    ensures Forward(RED, n) == RED
  {
    ForwardFromRed(5, 16, n);
    assert Pack(EdgeColor(5, 16)) == RED;
  }

  /** Red is not revisited before the 96th step. */
  lemma WheelPeriod(e: nat, k: nat, n: nat)
    requires e < 6 && k < 16 && 0 < n == 16 * e + k
    ensures Forward(RED, n) != RED
  {
    ForwardFromRed(e, k, n);
    if Pack(EdgeColor(e, k)) == RED {
      PackInjective(EdgeColor(e, k), EdgeColor(0, 0));
    }
  }

  /** On the channels, a backward step from 16e + k steps goes back to 16e + k - 1 steps, or stays at a vertex. */
  lemma OrbitBack(e: nat, k: nat, n: nat)
    requires e < 6 && k < 16 && n == 16 * e + k
    ensures k == 0 ==> NextChannels(Orbit(EdgeColor(0, 0), n), -1) == Orbit(EdgeColor(0, 0), n)
    ensures k > 0 ==> NextChannels(Orbit(EdgeColor(0, 0), n), -1) == Orbit(EdgeColor(0, 0), n - 1)
  {
    OrbitFromRed(e, k, n);
    StepBackAlongEdge(e, k);
    if k > 0 {
      OrbitFromRed(e, k - 1, n - 1);
    }
  }

  /** A backward press on the colour reached after n presses gives the colour reached after m presses when their channels agree. */
  lemma BackPacked(n: nat, m: nat)
    requires NextChannels(Orbit(EdgeColor(0, 0), n), -1) == Orbit(EdgeColor(0, 0), m)
    ensures NextColor(Forward(RED, n), -1) == Forward(RED, m)
  {
    ForwardPacked(EdgeColor(0, 0), n);
    ForwardPacked(EdgeColor(0, 0), m);
    NextColorPacked(Orbit(EdgeColor(0, 0), n), -1);
  }

  /**
   * A backward step retraces the last forward step, except at a vertex,
   * where the free channel of the edge the vertex starts is already at its
   * limit and the colour stays put.
   */
  lemma BackwardStep(e: nat, k: nat, n: nat)
    requires e < 6 && k < 16 && n == 16 * e + k
    ensures k == 0 ==> NextColor(Forward(RED, n), -1) == Forward(RED, n)
    ensures k > 0 ==> NextColor(Forward(RED, n), -1) == Forward(RED, n - 1)
  {
    OrbitBack(e, k, n);
    if k == 0 {
      BackPacked(n, n);
    } else {
      BackPacked(n, n - 1);
    }
  }

  /** A backward press on a vertex stays there: the wheel does not wrap backwards past a vertex. */
  lemma BackwardAtVertices(e: nat)
    requires e < 6
    ensures NextColor(VERTICES[e], -1) == VERTICES[e]
  {
    WheelVertices(e, 16 * e);
    BackwardStep(e, 0, 16 * e);
  }

  /** Between the lattice points the free channel moves by a full increment too: hot pink lies on the magenta-to-red edge. */
  lemma OffLatticeStep()
    ensures NextColor(0xFF0080, 1) == 0xFF0070
    ensures NextColor(0xFF0080, -1) == 0xFF0090
    ensures NextColor(0xFF00F8, -1) == 0xFF00FF
  {
    assert Unpack(0xFF0080) == Channels(255, 0, 0x80);
    assert Unpack(0xFF00F8) == Channels(255, 0, 0xF8);
  }

  /** Colours off the wheel, such as black, white and a pastel, go back to red in either direction. */
  lemma OffWheelResets(sign: int)
    requires -1 <= sign <= 1
    ensures NextColor(0x000000, sign) == RED
    ensures NextColor(0xFFFFFF, sign) == RED
    ensures NextColor(0xFF8080, sign) == RED
  {
    assert Unpack(0xFFFFFF) == Channels(255, 255, 255);
    assert Unpack(0xFF8080) == Channels(255, 128, 128);
  }
}
